/** Optional values and fallible results, used in place of Python's `None`
    and of the exceptions the dataset and training code raises. */
module Results {

  datatype Option<+T> = None | Some(value: T)

  datatype Result<+R, +E> = Success(value: R) | Failure(error: E)
}
