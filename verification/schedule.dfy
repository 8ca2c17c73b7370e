/** The integer rules of the epoch loop: when the learning rate decays, what
    it is at each epoch, which process is the coordinator, when and under
    which name a checkpoint is saved, and which batch loader is chosen. */
module Schedule {
  import opened Text

  // ---------------------------------------------------------------------------
  // processes
  // ---------------------------------------------------------------------------

  /** Where this process runs: whether horovod is importable, and if so its
      rank and the number of processes. */
  datatype Topology = Topology(horovod: bool, rank: int, size: int)

  /** `hvd is None or hvd.rank() == 0`: the process that logs, saves and
      validates. */
  predicate IsCoordinator(t: Topology): (c: bool)
    ensures !t.horovod ==> c
    ensures t.horovod ==> (c <==> t.rank == 0)
  {
    !t.horovod || t.rank == 0
  }

  /** `hvd is not None and multigpu`: parameters are broadcast from rank 0
      and the trainer is the distributed one. */
  predicate IsDistributed(t: Topology, multigpu: bool): (d: bool)
    ensures d ==> t.horovod
    ensures !multigpu ==> !d
  {
    t.horovod && multigpu
  }

  // ---------------------------------------------------------------------------
  // the learning-rate schedule
  // ---------------------------------------------------------------------------

  /** `epoch % every == 0 and epoch != 1`: the rate is multiplied by the
      factor before epoch `epoch` runs. Only whether the remainder is zero
      matters, and on that Python's floored `%` and Dafny's Euclidean `%`
      agree for every non-zero divisor; a zero divisor raises
      `ZeroDivisionError`, which the caller handles. */
  predicate DecaysBefore(epoch: int, every: int): (d: bool)
    requires every != 0
    ensures epoch == 1 ==> !d
    ensures d <==> epoch != 1 && epoch % Abs(every) == 0
  {
    RemainderOfNegatedDivisor(epoch, every);
    epoch % every == 0 && epoch != 1
  }

  /** How many times the rate has decayed once epoch `epoch` has started. */
  function DecayCount(epoch: int, every: int): nat
    requires every != 0
    decreases epoch
  {
    if epoch <= 1 then 0
    else DecayCount(epoch - 1, every) + (if DecaysBefore(epoch, every) then 1 else 0)
  }

  function Abs(k: int): nat { if k < 0 then -k else k }

  function Pow(x: real, k: nat): real
    decreases k
  {
    if k == 0 then 1.0 else x * Pow(x, k - 1)
  }

  /** The learning rate in force during epoch `epoch`. */
  function RateAt(lr: real, factor: real, every: int, epoch: int): real
    requires every != 0
  {
    lr * Pow(factor, DecayCount(epoch, every))
  }

  /** From one epoch to the next the rate is multiplied by the factor
      exactly when it decays before the later epoch, and is kept otherwise. */
  lemma RateAtStep(lr: real, factor: real, every: int, epoch: int)
    requires every != 0 && epoch >= 1
    ensures RateAt(lr, factor, every, epoch)
            == if DecaysBefore(epoch, every) then RateAt(lr, factor, every, epoch - 1) * factor
               else RateAt(lr, factor, every, epoch - 1)
  {
    var k := DecayCount(epoch - 1, every);
    if DecaysBefore(epoch, every) {
      assert DecayCount(epoch, every) == k + 1;
      assert lr * (factor * Pow(factor, k)) == (lr * Pow(factor, k)) * factor;
    }
  }

  /** The number of decays up to epoch `epoch` in closed form: one for every
      multiple of the period in `2..epoch`, which is `epoch / |every|`
      except that a period of one never decays before epoch 1. */
  lemma {:induction false} DecayCountClosedForm(epoch: int, every: int)
    requires every != 0 && epoch >= 1
    ensures DecayCount(epoch, every) == epoch / Abs(every) - (if Abs(every) == 1 then 1 else 0)
    decreases epoch
  {
    var m := Abs(every);
    if epoch == 1 {
      if m == 1 {
        DivModUnique(1, 1, 1, 0);
      } else {
        DivModUnique(1, m, 0, 1);
      }
    } else {
      DecayCountClosedForm(epoch - 1, every);
      RemainderOfNegatedDivisor(epoch, every);
      var step := if epoch % m == 0 then 1 else 0;
      assert DecayCount(epoch, every) == DecayCount(epoch - 1, every) + step;
      QuotientStep(epoch, m);
    }
  }

  lemma RemainderOfNegatedDivisor(a: int, b: int)
    requires b != 0
    ensures a % b == a % Abs(b)
  {
    if b < 0 {
      var q, r := a / b, a % b;
      assert a == q * b + r && 0 <= r < -b;
      assert a == (-q) * (-b) + r;
      DivModUnique(a, -b, -q, r);
    }
  }

  /** Quotient and remainder are the only ones with `0 <= r < m`. */
  lemma DivModUnique(a: int, m: int, q: int, r: int)
    requires m > 0 && a == q * m + r && 0 <= r < m
    ensures a / m == q && a % m == r
  {
    var q', r' := a / m, a % m;
    assert a == q' * m + r' && 0 <= r' < m;
    assert (q - q') * m == r' - r;
    MulBounds(q - q', m);
  }

  lemma MulBounds(k: int, m: int)
    requires m > 0
    ensures k >= 1 ==> k * m >= m
    ensures k <= -1 ==> k * m <= -m
  {
    if k >= 1 {
      assert k * m == (k - 1) * m + m;
    } else if k <= -1 {
      assert k * m == (k + 1) * m - m;
    }
  }

  /** Going from `a - 1` to `a` the quotient grows by one exactly at a
      multiple of `m`. */
  lemma QuotientStep(a: int, m: int)
    requires m > 0
    ensures a / m == (a - 1) / m + (if a % m == 0 then 1 else 0)
  {
    var q, r := (a - 1) / m, (a - 1) % m;
    assert a - 1 == q * m + r && 0 <= r < m;
    if r == m - 1 {
      DivModUnique(a, m, q + 1, 0);
    } else {
      DivModUnique(a, m, q, r + 1);
    }
  }

  /** With a period of two the rate already decays before epoch 2: for
      `lr = 0.01` and factor `0.5` epochs 1 to 4 run at 0.01, 0.005, 0.005 and
      0.0025. */
  lemma DecayBeforeSecondEpoch()
    ensures RateAt(0.01, 0.5, 2, 1) == 0.01
    ensures RateAt(0.01, 0.5, 2, 2) == 0.005
    ensures RateAt(0.01, 0.5, 2, 3) == 0.005
    ensures RateAt(0.01, 0.5, 2, 4) == 0.0025
  {
    assert DecayCount(2, 2) == 1;
    assert DecayCount(3, 2) == 1;
    assert DecayCount(4, 2) == 2;
    assert Pow(0.5, 2) == 0.25;
  }

  // ---------------------------------------------------------------------------
  // checkpoints
  // ---------------------------------------------------------------------------

  /** `epoch % save_frequency == 0` (evaluated only when a checkpoint prefix
      is set on the coordinator). */
  predicate SavesAfter(epoch: int, saveFrequency: int): (saves: bool)
    requires saveFrequency != 0
    ensures saves <==> epoch % Abs(saveFrequency) == 0
  {
    RemainderOfNegatedDivisor(epoch, saveFrequency);
    epoch % saveFrequency == 0
  }

  /** `f'{checkpoint}-{epoch:04}'`. */
  function CheckpointName(prefix: string, epoch: nat): (path: string)
    ensures |path| == |prefix| + 1 + Max(4, |Digits(epoch)|)
  {
    prefix + "-" + FormatZeroPadded(epoch, 4)
  }

  /** A checkpoint name is the prefix, a dash, and at least four decimal
      digits that read back as the epoch. */
  lemma CheckpointNameParts(prefix: string, epoch: nat)
    ensures var path := CheckpointName(prefix, epoch);
      && path[..|prefix| + 1] == prefix + "-"
      && AllDigits(path[|prefix| + 1..])
      && |path[|prefix| + 1..]| >= 4
      && ParseDigits(path[|prefix| + 1..]) == epoch
  {
    var path := CheckpointName(prefix, epoch);
    assert path[|prefix| + 1..] == FormatZeroPadded(epoch, 4);
    ParseFormatZeroPadded(epoch, 4);
  }

  /** Different epochs never overwrite each other's checkpoint. */
  lemma CheckpointNameInjective(prefix: string, e1: nat, e2: nat)
    requires CheckpointName(prefix, e1) == CheckpointName(prefix, e2)
    ensures e1 == e2
  {
    CheckpointNameParts(prefix, e1);
    CheckpointNameParts(prefix, e2);
  }

  /** Four digits at least, more when the epoch needs them. */
  lemma CheckpointNameExamples()
    ensures CheckpointName("ckpt", 2) == "ckpt-0002"
    ensures CheckpointName("m", 12345) == "m-12345"
  {
    assert Digits(2) == "2";
    assert ZeroPad("2", 4) == "0002" by {
      assert ['0'] + "2" == "02";
      assert ['0'] + "02" == "002";
      assert ['0'] + "002" == "0002";
      assert ZeroPad("0002", 4) == "0002";
      assert ZeroPad("002", 4) == "0002";
      assert ZeroPad("02", 4) == "0002";
    }
    assert Digits(12345) == "12345" by {
      assert Digits(1) == "1";
      assert Digits(12) == "12";
      assert Digits(123) == "123";
      assert Digits(1234) == "1234";
    }
  }

  // ---------------------------------------------------------------------------
  // the batch loader
  // ---------------------------------------------------------------------------

  datatype Sampler = Bucket | Sequential
  datatype LoaderKind = Direct | Prefetching

  /** The arguments `_build_dataloader` hands to the batch sampler and the
      loader class it picks. */
  datatype LoaderConfig = LoaderConfig(
    sampler: Sampler, batchSize: int, lastBatch: string,
    numParts: int, partIndex: int, kind: LoaderKind)

  /** A process of a well-formed topology: a rank among `size` processes. */
  predicate WellFormed(t: Topology)
  {
    t.horovod ==> 0 <= t.rank < t.size
  }

  /** `_build_dataloader`: bucketing when shuffling, one shard per process,
      and the prefetching loader when `prefetch > 0`. On a well-formed
      topology this process reads a shard that exists. */
  function DataloaderConfig(prefetch: int, t: Topology, batchSize: int, shuffle: bool, lastBatch: string)
    : (c: LoaderConfig)
    ensures c.sampler == Bucket <==> shuffle
    ensures c.kind == Prefetching <==> prefetch > 0
    ensures !t.horovod ==> c.numParts == 1 && c.partIndex == 0
    ensures t.horovod ==> c.numParts == t.size && c.partIndex == t.rank
    ensures WellFormed(t) ==> 0 <= c.partIndex < c.numParts
    ensures c.batchSize == batchSize && c.lastBatch == lastBatch
  {
    LoaderConfig(
      if shuffle then Bucket else Sequential, batchSize, lastBatch,
      if t.horovod then t.size else 1,
      if t.horovod then t.rank else 0,
      if prefetch > 0 then Prefetching else Direct)
  }
}
