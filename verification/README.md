# sknlp core: dataset indexing and the epoch loop, in Dafny

This project models two parts of sknlp, a small NLP toolkit on top of mxnet.

**The dataset layer** (`sknlp/data/dataset.py`):
- `InMemoryDataset` joins parallel columns into tab-separated rows.
- The `NLPDataset` / `SupervisedNLPDataset` constructors scan the corpus once. In that pass they count tokens and record per-row token counts. They also count the pipe-separated labels, drop the empty label, sort the rest and number them `0..K-1` into `label2idx`, then invert it into `idx2label`.
- Rows are encoded when accessed:
  - the text is cut at `max_length`, segmented and looked up in the vocabulary;
  - the label field is encoded by one of three policies: the plain id list, the truncated tag list of `SequenceTagDataset`, or the multi-hot vector of `ClassifyDataset`.
- Ids decode back to labels.

**The training control flow** (`sknlp/base.py`):
- `_fit` checks that there are trainable blocks, creates the trainer, and runs the epoch loop.
- The learning rate decays before epoch `e` exactly when `e % lr_update_epochs == 0 and e != 1`.
- `_one_epoch` takes one optimizer step per batch, resets the loader once, and divides the summed per-batch loss by the batch count.
- After each epoch, the coordinator process logs the loss, saves `{checkpoint}-{epoch:04}` when it is due, and validates.
- `_build_dataloader` picks the sampler, the shard and the loader class.
- `DeepSupervisedModel.fit` records `prefetch`, adopts the training dataset's vocabulary and label index, and builds only an untrained model.

Modules, in dependency order:
- `Results` (`results.dfy`): `Option` and `Result`.
- `Text` (`text.dfy`): Python's `str.split` and `str.join` on a one-character separator, code-point string order, `s[:n]`, the `list` segmenter, and `{n:04}`.
- `Labels` (`labels.dfy`): sorting, numbering and inverting the label set.
- `Encoding` (`encoding.dfy`): the vocabulary lookup, the label policies and their decoders.
- `Datasets` (`dataset.dfy`): `InMemoryDataset`, the corpus scan, and the `NlpDataset` and `SupervisedDataset` classes.
- `Schedule` (`schedule.dfy`): the decay rule, checkpoint names, the coordinator test, and the loader configuration.
- `FitRun` (`fitrun.dfy`): `RunEpochs`, a function giving everything a call of the epoch loop does, with its properties.
- `Training` (`training.dfy`): the classes whose methods run that loop. Their contracts tie the new state to `RunEpochs`.

How the source is represented:
- `Vocab` is an abstract token→id map with an out-of-vocabulary id. Building it from the token counts is the parameter `buildVocab`.
- The segmenter is a `string -> seq<string>` parameter; the default `list` is `Text.Chars`.
- A `Counter` is a `multiset`.
- The three supervised dataset classes are one class with a `Task` tag.
- The numerical work of a batch is the `engine` parameter of `FitRun.Setup`, the summed loss of batch `j` in epoch `e`. Losses and learning rates are `real`.
- Hook calls (`_build`, `_train_log`, `save`, `_valid_log`, the horovod broadcast) are recorded as `Event`s in the model's `log`.
- `KeyError`, `ValueError`, `ZeroDivisionError` and the failed `assert` become the error values of `Result`/`Option`.

Two behaviours of the code that are easy to misread:
- **Token counts come from the whole text.** The constructors segment the untruncated text when they count tokens and record per-row token counts (`sknlp/data/dataset.py:98`, `:174`). `text_lengths` recomputes the counts from the encoded rows, whose text is cut at `max_length` (`sknlp/data/dataset.py:109`, `:196`). So the cached and the recomputed counts can differ. `Datasets.ScanAndRecomputedLengthsDiffer` proves that they differ for the default character segmenter on every text longer than `max_length`. For other segmenters the model states both counts but proves no such difference.
- **The rate decays before epoch 2.** The decay test `epoch % lr_update_epochs == 0 and epoch != 1` runs before each epoch (`sknlp/base.py:84-88`). So with `lr_update_epochs=2` epoch 2 already runs at the decayed rate. `Schedule.DecayBeforeSecondEpoch` proves the rates 0.01, 0.005, 0.005 and 0.0025 for epochs 1–4 when `lr=0.01` and the factor is 0.5.

## Model

| member | source | states |
|---|---|---|
| Text.Split | sknlp/data/dataset.py:112-113 | `str.split` on one character always yields at least one piece |
| Text.SplitFieldCount | sknlp/data/dataset.py:112-113 | a row splits into one more field than it has separators |
| Text.SplitPiecesLackSeparator | sknlp/data/dataset.py:112-113 | no field of a split holds the separator |
| Text.SplitJoin | sknlp/data/dataset.py:48-50 | splitting a tab-join gives back the joined fields in order when none holds a tab |
| Text.JoinSplit | sknlp/data/dataset.py:48-50 | joining the fields of a split gives the row back |
| Text.Join | sknlp/data/dataset.py:48-50 | `'\t'.join(fields)` starts with the first field, which is followed by the separator when there is a second field |
| Text.LessIrreflexive | sknlp/data/dataset.py:186-187 | no label sorts before itself |
| Text.LessTransitive | sknlp/data/dataset.py:186-187 | the string order that `sort` uses is transitive |
| Text.LessTotal | sknlp/data/dataset.py:186-187 | any two different labels are ordered one way or the other |
| Text.Less | sknlp/data/dataset.py:186-187 | Python's code-point string order: a proper prefix sorts first, and no string sorts before its own prefix |
| Text.Prefix | sknlp/data/dataset.py:116 | `s[:n]` is a prefix of `s`: all of `s` for `None`, `min(len, n)` items for `n >= 0`, `max(0, len + n)` for negative `n` |
| Text.Chars | sknlp/data/dataset.py:85-86 | the default segmenter `list` yields one token per character |
| Text.ConcatChars | sknlp/data/dataset.py:85-86 | the character tokens concatenate back to the text |
| Text.FormatZeroPadded | sknlp/base.py:95 | `{n:04}` is all digits, and as long as the wider of the width and the number's digits |
| Text.ParseFormatZeroPadded | sknlp/base.py:95 | the zero-padded number reads back as the number |
| Labels.SortLabels | sknlp/data/dataset.py:186-187 | the sorted label list is strictly ascending and holds each key exactly once |
| Labels.Enumerate | sknlp/data/dataset.py:188 | `dict(zip(labels, range(n)))` has exactly the labels as keys, each mapped to a position holding it |
| Labels.EnumerateDistinct | sknlp/data/dataset.py:188 | on distinct labels the id of the label at position `i` is `i` |
| Labels.Invert | sknlp/data/dataset.py:191 | `idx2label` has exactly the ids as keys, maps each id to a label with that id, and is the exact inverse of a one-to-one index |
| Labels.BuildLabelIndex | sknlp/data/dataset.py:180-188 | the built index has exactly the counted non-empty labels as keys, its ids are exactly `0..K-1`, ids follow string order, and it is one-to-one |
| Labels.SortedIndexProperties | sknlp/data/dataset.py:186-188 | numbering a strictly sorted list gives contiguous, order-preserving, one-to-one ids |
| Encoding.LookupTokens | sknlp/data/dataset.py:116 | `vocab[tokens]` gives one id per token: the token's id, or the unknown id |
| Encoding.PreprocessText | sknlp/data/dataset.py:115-116 | the encoded text has one id per token of the text cut at `max_length` |
| Encoding.PreprocessCharsLength | sknlp/data/dataset.py:85-86 | with the default segmenter the encoded text has `min(len(text), max_length)` ids, each the id of its character |
| Encoding.LabelIds | sknlp/data/dataset.py:202-203 | the list comprehension succeeds iff every field is a key, then gives the ids in order; otherwise it fails on the first unknown field |
| Encoding.PreprocessLabel | sknlp/data/dataset.py:202-203 | the plain policy gives one id per pipe field |
| Encoding.PreprocessTagLabel | sknlp/data/dataset.py:243-246 | the tagging policy gives at most `max_length` ids |
| Encoding.EmptyLabelFails | sknlp/data/dataset.py:180-203 | an empty label field fails to encode with a built index, since `''` is removed from the counter |
| Encoding.TagIdsToLabels | sknlp/data/dataset.py:248-249 | tag decoding never fails, keeps the length, and maps unknown ids to `'O'` |
| Encoding.TagRoundTrip | sknlp/data/dataset.py:243-249 | decoding an encoded tag field gives its first `max_length` fields back |
| Encoding.PlainRoundTrip | sknlp/data/dataset.py:191-203 | through the inverse index each plain id decodes to its field |
| Encoding.ClassList | sknlp/data/dataset.py:230-232 | the binarizer's classes are `idx2label[0..K-1]`, which fails iff some id in range has no label |
| Encoding.MultiHot | sknlp/data/dataset.py:234-235 | the multi-hot row has one entry per class, 1 iff the class is among the fields, else 0 |
| Encoding.PreprocessClassLabel | sknlp/data/dataset.py:234-235 | the classification policy gives a vector of length `K` |
| Encoding.MultiHotIgnoresOrder | sknlp/data/dataset.py:234-235 | fields with the same set of labels encode alike, so order and duplicates do not matter |
| Encoding.ClassIdsToLabels | sknlp/data/dataset.py:237-238 | class decoding drops unknown ids and yields exactly the labels of the known ones |
| Encoding.ClassRoundTrip | sknlp/data/dataset.py:230-238 | decoding the hot positions gives exactly the field's labels that are classes |
| Datasets.ShortestColumn | sknlp/data/dataset.py:49 | `zip` stops at the shortest column: the result is no longer than any column and equals one of them |
| Datasets.NewInMemoryDataset | sknlp/data/dataset.py:42-56 | there are as many rows as the shortest column has entries |
| Datasets.InMemoryRowRoundTrip | sknlp/data/dataset.py:48-50 | splitting row `i` gives back the `i`-th entries in column order, with text first and label second, when no entry holds a tab |
| Datasets.TextOf | sknlp/data/dataset.py:96 | `_split_row(row)[0]`, the first tab field of the row (characterised by `TextOfRow`) |
| Datasets.TextOfRow | sknlp/data/dataset.py:96 | the text is the row up to its first tab: a tab-free prefix that is the whole row or is followed by a tab |
| Datasets.LabelFieldOf | sknlp/data/dataset.py:172 | the label of `_split_row(row)[:2]`, the second tab field of the row (characterised by `LabelFieldOfRow`) |
| Datasets.LabelFieldOfRow | sknlp/data/dataset.py:172 | the label is the tab-free field right after the text and its tab, ending at the next tab or at the end of the row |
| Datasets.Tally | sknlp/data/dataset.py:176-179 | the counter after `Counter.update` on every item in turn: every piece of every item, counted with repetition (its properties are `TallyHolds`, `TallyCountsEach` and `TallyStep`) |
| Datasets.TallyCountsEach | sknlp/data/dataset.py:176-179 | each item's pieces are in the counter at least as often as the item yields them |
| Datasets.TallyHolds | sknlp/data/dataset.py:176-179 | a piece is counted iff some item yields it |
| Datasets.TallyStep | sknlp/data/dataset.py:176-179 | `Counter.update` with one more item adds its pieces |
| Datasets.CorpusTokensHold | sknlp/data/dataset.py:94-100 | a token is counted iff some row's segmented text holds it |
| Datasets.CorpusLabelsHold | sknlp/data/dataset.py:177-179 | a label is counted iff some row's label field holds it as a pipe field |
| Datasets.CorpusTokensStep | sknlp/data/dataset.py:173-176 | scanning one more row adds its tokens and its token count |
| Datasets.CorpusLabelsStep | sknlp/data/dataset.py:177-179 | scanning one more row adds its label fields |
| Datasets.ScanCorpus | sknlp/data/dataset.py:166-180 | the scan fails iff a row lacks a label column, and then at the first such row; otherwise it returns exactly the corpus token counter, the per-row token counts and the label counter, each only on the side being built |
| Datasets.NlpDataset.constructor | sknlp/data/dataset.py:77-104 | the segmenter defaults to `list`; a given vocabulary is kept and nothing is counted; otherwise the vocabulary is built from the corpus tokens, with per-row counts of the untruncated texts |
| Datasets.NlpDataset.Item | sknlp/data/dataset.py:115-127 | `self[idx]` has one id per token of row `idx`'s text cut at `max_length` |
| Datasets.NlpDataset.TextLengths | sknlp/data/dataset.py:106-110 | a cache with one entry per row is kept; otherwise it is replaced by the encoded lengths |
| Datasets.ScanAndRecomputedLengthsDiffer | sknlp/data/dataset.py:97-116 | the scan counts the whole text while the recomputation counts the cut text |
| Datasets.SupervisedDataset.Create | sknlp/data/dataset.py:151-232 | fails iff a row lacks a label column (at the first such row), or a classification index lacks a label for some id in `0..K-1`; keeps an injected vocabulary or `label2idx` unchanged and counts nothing for it; otherwise builds the vocabulary from the corpus token counter, with per-row counts of the untruncated texts, and numbers the distinct non-empty labels `0..K-1` in string order; `idx2label` inverts `label2idx` |
| Datasets.SupervisedDataset.EncodeLabel | sknlp/data/dataset.py:202-246 | the plain and tag policies succeed iff every (kept) field has an id, and yield only ids of the index; the multi-hot policy never fails and yields `K` entries that are each 0 or 1 |
| Datasets.SupervisedDataset.GetItem | sknlp/data/dataset.py:205-213 | `self[idx]` succeeds iff its label encodes; the text part is the encoded text cut at `max_length`, and the label part is `EncodeLabel` of the row's label field, so `EncodeLabel`'s per-task contract carries over |
| Datasets.SupervisedDataset.IdsToLabels | sknlp/data/dataset.py:237-249 | tagging keeps the length; classification never lengthens |
| Datasets.SupervisedDataset.SharedIndexEncodesAlike | sknlp/data/dataset.py:173-190 | two datasets of one kind sharing a one-to-one injected `label2idx` encode every label field alike |
| Datasets.SupervisedDataset.TextLengths | sknlp/data/dataset.py:193-197 | a full cache is returned unchanged; otherwise it succeeds iff every row encodes, and then the cache becomes the encoded text lengths; on failure the cache is left alone |
| Schedule.RateAtStep | sknlp/base.py:84-89 | the rate of epoch `e` is the previous one times the factor iff the schedule decays before `e` |
| Schedule.DecaysBefore | sknlp/base.py:86 | the rate never decays before epoch 1, and otherwise decays iff the period's magnitude divides the epoch, so the sign of `lr_update_epochs` does not matter |
| Schedule.DecayCountClosedForm | sknlp/base.py:84-88 | the decay count up to epoch `e` is `e // abs(k)`, minus one when `abs(k) == 1` |
| Schedule.DecayBeforeSecondEpoch | sknlp/base.py:84-88 | with `lr=0.01`, factor 0.5 and period 2, epochs 1–4 run at 0.01, 0.005, 0.005, 0.0025 |
| Schedule.CheckpointName | sknlp/base.py:95 | the name is as long as the prefix, a dash and at least four digits |
| Schedule.CheckpointNameParts | sknlp/base.py:95 | the name is the prefix, a dash, and at least four digits that read back as the epoch |
| Schedule.CheckpointNameInjective | sknlp/base.py:95 | different epochs never share a checkpoint name |
| Schedule.CheckpointNameExamples | sknlp/base.py:95 | `ckpt` and epoch 2 give `ckpt-0002`; `m` and epoch 12345 give `m-12345` |
| Schedule.SavesAfter | sknlp/base.py:94 | a save is due after epoch `e` iff the magnitude of `save_frequency` divides `e` |
| Schedule.IsCoordinator | sknlp/base.py:92 | without horovod the process is the coordinator; with horovod exactly rank 0 is |
| Schedule.IsDistributed | sknlp/base.py:74 | the trainer is distributed only under horovod and only with `multigpu` |
| Schedule.DataloaderConfig | sknlp/base.py:194-207 | bucket sampling iff shuffling; one part and index 0 without horovod, otherwise size and rank; prefetching loader iff `prefetch > 0`; a well-formed process reads an existing shard |
| FitRun.MeanLoss | sknlp/base.py:161 | the mean loss fails iff there was no batch, and then with a division by zero |
| FitRun.MeanLossBounded | sknlp/base.py:150-161 | the mean lies between the smallest and the largest per-batch loss |
| FitRun.LossSum | sknlp/base.py:150-151 | `total_loss` accumulates the per-sample batch losses and is non-negative when every batch loss is |
| FitRun.BatchLoss | sknlp/base.py:163-164 | the per-sample loss times the batch's sample count is the batch's summed loss |
| FitRun.BatchUpdates | sknlp/base.py:144-148 | an epoch steps once per batch, in order, with the batch's sample count and the rate in force |
| FitRun.EpochEvents | sknlp/base.py:92-97 | the coordinator's events of an epoch start with the training log of its mean loss |
| FitRun.DecayedRate | sknlp/base.py:130-135 | `_before_epoch` keeps the rate in epoch 1 and in every epoch the period does not divide |
| FitRun.RunEpoch | sknlp/base.py:84-97 | one loop iteration only appends to the log and to the trainer's steps, resets the loader at most once, and never clears `_trained` |
| FitRun.RunEpochs | sknlp/base.py:84-97 | a run of `n` epochs only appends to the log and the steps, resets the loader at most `n` times, and never clears `_trained` |
| FitRun.EpochSucceeds | sknlp/base.py:84-97 | an error-free epoch applies the decayed rate, steps once per batch, resets once, sets `_trained`, and adds the epoch's events only on the coordinator |
| FitRun.EpochFailsSaving | sknlp/base.py:92-95 | a zero save frequency with a checkpoint raises after the epoch trained and its loss was logged |
| FitRun.StopsAtError | sknlp/base.py:84-97 | once an epoch raises, later epochs change nothing |
| FitRun.RunSucceedsIff | sknlp/base.py:84-97 | a run of at least one epoch ends without error iff the decay period is non-zero, there is a batch, and a coordinator with a checkpoint has a non-zero save frequency; any error is a division by zero |
| FitRun.RunRate | sknlp/base.py:84-89 | after `n` error-free epochs the rate is `lr * factor^DecayCount(n)` |
| FitRun.RunUpdates | sknlp/base.py:84-90 | an error-free run makes exactly the scheduled steps |
| FitRun.ScheduledUpdateAt | sknlp/base.py:84-90 | step `j` of epoch `e` uses batch `j`'s sample count and epoch `e`'s rate |
| FitRun.RunTrained | sknlp/base.py:91 | `_trained` holds after a run iff it held before, or some epoch got through `_one_epoch` |
| FitRun.RunResets | sknlp/base.py:160 | an error-free run resets the loader once per epoch |
| FitRun.OthersStaySilent | sknlp/base.py:92 | a process other than the coordinator logs, saves and validates nothing |
| FitRun.CoordinatorEvents | sknlp/base.py:92-97 | on the coordinator an event occurs iff some epoch's events hold it |
| FitRun.SavedIff | sknlp/base.py:92-95 | checkpoint `prefix-e` is saved iff `e` ran, the process is the coordinator, the prefix is configured, and `e % save_frequency == 0` |
| FitRun.ValidatedIff | sknlp/base.py:92-97 | validation runs after epoch `e` iff `e` ran, the process is the coordinator, and there is validation data |
| FitRun.TrainLoggedEach | sknlp/base.py:92-93 | the coordinator logs the mean loss of every epoch |
| FitRun.CheckpointNamesDistinct | sknlp/base.py:95 | a checkpoint name determines its prefix and its epoch |
| Training.Trainer.constructor | sknlp/base.py:72-83 | a trainer starts at `lr` with no steps taken |
| Training.Trainer.SetLearningRate | sknlp/base.py:135 | sets the rate and takes no step |
| Training.Trainer.Step | sknlp/base.py:148 | appends one step at the current rate |
| Training.DataLoader.Reset | sknlp/base.py:160 | counts one reset |
| Training.BaseModel.constructor | sknlp/base.py:19-23 | a new model is untrained, with no trainable blocks and `prefetch == 0` |
| Training.BaseModel.BeforeEpoch | sknlp/base.py:130-136 | multiplies the rate by the factor iff asked to |
| Training.BaseModel.OneEpoch | sknlp/base.py:138-161 | steps once per batch at the current rate, resets once, and returns `MeanLoss` (a division by zero without batches) |
| Training.BaseModel.Epoch | sknlp/base.py:84-97 | one loop iteration leaves the trainer, loader, `_trained`, log and error exactly as `RunEpoch` describes |
| Training.BaseModel.FitEpochs | sknlp/base.py:70-97 | no trainable blocks fails before any change; otherwise the run leaves the state and error exactly as `RunEpochs` describes, after an optional broadcast |
| Training.BaseModel.AfterEpoch | sknlp/base.py:92-97 | the coordinator logs the loss, then raises iff a checkpoint has a zero save frequency, else logs the epoch's events |
| Training.BaseModel.Build | sknlp/base.py:280-281 | building adds the blocks to the trainable ones and records the call |
| Training.BaseModel.BuildDataloader | sknlp/base.py:194-207 | a fresh loader over the batches, configured by `DataloaderConfig` |
| Training.DeepSupervisedModel.constructor | sknlp/base.py:219-224 | keeps the given vocabulary and label index, with empty metadata |
| Training.DeepSupervisedModel.AdoptIndexes | sknlp/base.py:275-279 | takes the dataset's vocabulary and `label2idx` only where the model's own are `None`, and records a taken index in `meta['label2idx']` |
| Training.DeepSupervisedModel.Fit | sknlp/base.py:272-297 | sets `prefetch`, adopts the indexes, builds only an untrained model, validates iff a validation dataset or both `valid_X` and `valid_y` are given, builds and returns a fresh loader over the batches configured by `DataloaderConfig` with the new `prefetch` and `shuffle=True`, and then does what `FitEpochs` does on it |

## Left out

- `RecordFileDataset` and `SimpleIndexedRecordIO` (`sknlp/data/dataset.py:13-34`) read an index file and a data file through a reader that is not part of this model.
- The internals of `Vocab` (`sknlp/vocab`) are not part of this model. This includes how ids are assigned from the counts (the parameter `buildVocab`) and `idx2tokens`, which is `Vocab.to_tokens`.
- `MultiLabelBinarizer` is modelled by its observable multi-hot result. The warning it emits for a label outside its classes is not modelled.
- Numerical training is the `engine` oracle. This covers mxnet's forward and backward passes, `_forward_backward`, `_clip_gradient` and the `clip` option, the device `_ctx`, and `_batch_loss`'s tensor shapes. Floating point is modelled as exact `real` arithmetic.
- Horovod's broadcast and `DistributedTrainer` are recorded only as the `ParametersBroadcast` event and the trainer's `distributed` flag. Rank and size are the parameters of `Topology`.
- `BatchSampler`, `DataLoader` and `PrefetchDataLoader` are not part of this model. A loader is the sequence of its batches' sample counts. The bucket sampler's reshuffling between epochs is not modelled: every epoch sees the same batches.
- The throughput and learning-rate log lines are not modelled.
- The abstract hooks are left out. `_build` is the `blocks` parameter, `_get_or_build_dataset` is the `train` dataset given to `Fit`, and `_train_log`, `save` and `_valid_log` are events. `_calculate_loss`, `_batchify_fn`, `_collect_params` and `load` have no model.
- `valid_X` / `valid_y` of `None` are modelled as empty sequences. Only the truthiness test on them is modelled, as the `hasValid` flag; building the validation dataset is not.
- The iteration order of a Python `dict` is not modelled. When an injected `label2idx` gives two labels one id, `Labels.Invert` keeps an unspecified one of them.
- The commented-out classes (`sknlp/data/dataset.py:252-359`) and `sknlp/data/__init__.py` are not modelled.
- Datasets.SupervisedDataset.IdsToLabels: its own contract states only lengths. What the decoded labels are is stated by `Encoding.TagIdsToLabels`, `Encoding.ClassIdsToLabels` and the round-trip lemmas, which it calls directly.
- Every batch is assumed to hold at least one sample (`FitRun.PositiveSizes`, which `FitRun.ValidSetup` and `Training.DeepSupervisedModel.Fit` require). `_batch_loss` divides by the batch's sample count, and a batch sampler yields no empty batch.
- Rows are accessed only at indices `0 <= idx < len(self)` (`Datasets.NlpDataset.Item`, `Datasets.SupervisedDataset.GetItem`). Python's `self._record[idx]` (`sknlp/data/dataset.py:53`) also accepts negative indices counted from the end, and these are not modelled.
