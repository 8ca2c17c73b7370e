/** What a call of the epoch loop does, as a function of its inputs: the
    optimizer updates it makes (with the rate each one uses), the events it
    produces (logs, checkpoint saves, validation runs), how often it resets
    the batch loader, whether the model counts as trained afterwards, and
    the error it stops with. The loop itself is `BaseModel.FitEpochs`. */
module FitRun {
  import opened Results
  import opened Text
  import opened Schedule

  /** `AssertionError('No trainable parameters')` and `ZeroDivisionError`. */
  datatype TrainingError = NoTrainableParameters | ZeroDivision

  /** One `trainer.step(steps)`: the batch's sample count and the learning
      rate in force. */
  datatype Update = Update(batchSize: nat, rate: real)

  /** The calls the loop makes into the model's hooks and the logger. */
  datatype Event =
    | ParametersBroadcast              // `hvd.broadcast_parameters`
    | Built                            // `_build`
    | TrainLogged(epoch: int, loss: real)   // `_train_log(avg_loss)`
    | Saved(path: string)              // `save(path)`
    | Validated(epoch: int)            // `_valid_log(valid_dataset)`

  /** The keyword options of `_fit` the loop acts on. */
  datatype FitConfig = FitConfig(
    lr: real, nEpochs: int, optimizer: string, factor: real, every: int,
    checkpoint: Option<string>, saveFrequency: int, multigpu: bool)

  /** Every batch the loader yields holds at least one sample. */
  predicate PositiveSizes(batches: seq<nat>)
  {
    forall j :: 0 <= j < |batches| ==> batches[j] > 0
  }

  /** Everything a run depends on: the options, the process, the sample
      count of each batch, the summed loss the engine computes for batch `j`
      of epoch `e`, and whether there is a validation dataset. */
  datatype Setup = Setup(
    config: FitConfig, topology: Topology, batches: seq<nat>,
    engine: (int, int) -> real, hasValid: bool)

  predicate ValidSetup(s: Setup)
  {
    PositiveSizes(s.batches)
  }

  // ---------------------------------------------------------------------------
  // one epoch
  // ---------------------------------------------------------------------------

  /** `total_loss` after the first `n` batches: each batch contributes its
      summed loss divided by its sample count. */
  function LossSum(s: Setup, epoch: int, n: nat): (total: real)
    requires ValidSetup(s) && n <= |s.batches|
    ensures (forall j :: 0 <= j < n ==> s.engine(epoch, j) >= 0.0) ==> total >= 0.0
  {
    if n == 0 then 0.0
    else LossSum(s, epoch, n - 1) + s.engine(epoch, n - 1) / (s.batches[n - 1] as real)
  }

  /** `total_loss / num_batch`: the mean per-batch loss, a division by zero
      when the loader yields nothing. */
  function MeanLoss(s: Setup, epoch: int): (r: Result<real, TrainingError>)
    requires ValidSetup(s)
    ensures r.Failure? <==> s.batches == []
    ensures r.Failure? ==> r.error == ZeroDivision
  {
    if s.batches == [] then Failure(ZeroDivision)
    else Success(LossSum(s, epoch, |s.batches|) / (|s.batches| as real))
  }

  /** The per-sample loss of batch `j` in epoch `e`. */
  function BatchLoss(s: Setup, epoch: int, j: nat): (loss: real)
    requires ValidSetup(s) && j < |s.batches|
    ensures loss * (s.batches[j] as real) == s.engine(epoch, j)
  {
    s.engine(epoch, j) / (s.batches[j] as real)
  }

  /** The mean loss lies between the smallest and the largest per-batch
      loss. */
  lemma MeanLossBounded(s: Setup, epoch: int, lo: real, hi: real)
    requires ValidSetup(s) && s.batches != []
    requires forall j :: 0 <= j < |s.batches| ==> lo <= BatchLoss(s, epoch, j) <= hi
    ensures lo <= MeanLoss(s, epoch).value <= hi
  {
    var n := |s.batches|;
    LossSumBounded(s, epoch, lo, hi, n);
    var total := LossSum(s, epoch, n);
    var k := n as real;
    assert k * lo <= total <= k * hi;
    var mean := total / k;
    assert mean * k == total;
    if mean < lo {
      assert mean * k < lo * k;
    }
    if mean > hi {
      assert mean * k > hi * k;
    }
  }

  lemma {:induction false} LossSumBounded(s: Setup, epoch: int, lo: real, hi: real, n: nat)
    requires ValidSetup(s) && n <= |s.batches|
    requires forall j :: 0 <= j < |s.batches| ==> lo <= BatchLoss(s, epoch, j) <= hi
    ensures (n as real) * lo <= LossSum(s, epoch, n) <= (n as real) * hi
  {
    if n > 0 {
      LossSumBounded(s, epoch, lo, hi, n - 1);
      assert lo <= BatchLoss(s, epoch, n - 1) <= hi;
      assert (n as real) * lo == ((n - 1) as real) * lo + lo;
      assert (n as real) * hi == ((n - 1) as real) * hi + hi;
    }
  }

  /** The `trainer.step` calls of one epoch, in batch order, all at `rate`. */
  function BatchUpdates(batches: seq<nat>, rate: real): (u: seq<Update>)
    ensures |u| == |batches|
    ensures forall j :: 0 <= j < |batches| ==> u[j] == Update(batches[j], rate)
  {
    seq(|batches|, j requires 0 <= j < |batches| => Update(batches[j], rate))
  }

  /** What a coordinator logs after epoch `epoch` completes: the training
      loss, the checkpoint when one is due, and the validation run. */
  function EpochEvents(s: Setup, epoch: nat): (events: seq<Event>)
    requires ValidSetup(s) && s.batches != []
    requires s.config.checkpoint.Some? ==> s.config.saveFrequency != 0
    ensures |events| >= 1 && events[0] == TrainLogged(epoch, MeanLoss(s, epoch).value)
  {
    var c := s.config;
    [TrainLogged(epoch, MeanLoss(s, epoch).value)]
    + (if c.checkpoint.Some? && SavesAfter(epoch, c.saveFrequency)
       then [Saved(CheckpointName(c.checkpoint.value, epoch))] else [])
    + (if s.hasValid then [Validated(epoch)] else [])
  }

  /** The state a run accumulates. */
  datatype Progress = Progress(
    events: seq<Event>, updates: seq<Update>, rate: real, resets: nat,
    trained: bool, error: Option<TrainingError>)

  /** The state before the first epoch: a fresh trainer at `lr`. */
  function Start(lr: real, trained: bool): Progress
  {
    Progress([], [], lr, 0, trained, None)
  }

  /** Epoch `epoch` of the loop, from a state without error: the decay test
      (a zero period raises), `_before_epoch`, `_one_epoch` (which steps once
      per batch at the current rate, resets the loader and divides by the
      batch count), then `_trained`, and on the coordinator the training
      log, the checkpoint (a zero save frequency raises) and validation. */
  function RunEpoch(s: Setup, p: Progress, epoch: nat): (q: Progress)
    requires ValidSetup(s) && epoch >= 1 && p.error.None?
    ensures p.events <= q.events && p.updates <= q.updates
    ensures p.resets <= q.resets <= p.resets + 1
    ensures p.trained ==> q.trained
  {
    var c := s.config;
    if c.every == 0 then p.(error := Some(ZeroDivision))
    else
      var rate := DecayedRate(s, p.rate, epoch);
      var ran := p.(updates := p.updates + BatchUpdates(s.batches, rate), rate := rate, resets := p.resets + 1);
      if s.batches == [] then ran.(error := Some(ZeroDivision))
      else if !IsCoordinator(s.topology) then ran.(trained := true)
      else if c.checkpoint.Some? && c.saveFrequency == 0 then
        ran.(trained := true, events := ran.events + [TrainLogged(epoch, MeanLoss(s, epoch).value)],
             error := Some(ZeroDivision))
      else ran.(trained := true, events := ran.events + EpochEvents(s, epoch))
  }

  /** Epochs `1..n`, stopping at the first error. */
  function RunEpochs(s: Setup, start: Progress, n: int): (p: Progress)
    requires ValidSetup(s) && start.error.None?
    ensures start.events <= p.events && start.updates <= p.updates
    ensures start.resets <= p.resets <= start.resets + (if n < 1 then 0 else n)
    ensures start.trained ==> p.trained
    decreases n
  {
    if n < 1 then start
    else
      var p := RunEpochs(s, start, n - 1);
      if p.error.Some? then p else RunEpoch(s, p, n)
  }

  /** The rate `_before_epoch` leaves in force for epoch `epoch`. */
  function DecayedRate(s: Setup, rate: real, epoch: int): (r: real)
    requires s.config.every != 0
    ensures epoch == 1 ==> r == rate
    ensures epoch % s.config.every != 0 ==> r == rate
  {
    if DecaysBefore(epoch, s.config.every) then rate * s.config.factor else rate
  }

  /** An epoch that raises nothing: one step per batch at the rate after
      the decay test, one reset, `_trained` set, and on the coordinator the
      epoch's events. */
  lemma EpochSucceeds(s: Setup, p: Progress, epoch: nat)
    requires ValidSetup(s) && epoch >= 1 && p.error.None? && CanRun(s)
    ensures var q := RunEpoch(s, p, epoch);
      && q.error.None?
      && q.updates == p.updates + BatchUpdates(s.batches, DecayedRate(s, p.rate, epoch))
      && q.rate == DecayedRate(s, p.rate, epoch)
      && q.resets == p.resets + 1 && q.trained
      && q.events == p.events + (if IsCoordinator(s.topology) then EpochEvents(s, epoch) else [])
  {
    if !IsCoordinator(s.topology) {
      assert p.events + [] == p.events;
    }
  }

  /** A coordinator with a checkpoint prefix and a zero save frequency
      trains the epoch, logs its loss and then raises. */
  lemma EpochFailsSaving(s: Setup, p: Progress, epoch: nat)
    requires ValidSetup(s) && epoch >= 1 && p.error.None?
    requires s.config.every != 0 && s.batches != [] && IsCoordinator(s.topology)
    requires s.config.checkpoint.Some? && s.config.saveFrequency == 0
    ensures var q := RunEpoch(s, p, epoch);
      && q.error == Some(ZeroDivision)
      && q.updates == p.updates + BatchUpdates(s.batches, DecayedRate(s, p.rate, epoch))
      && q.rate == DecayedRate(s, p.rate, epoch)
      && q.resets == p.resets + 1 && q.trained
      && q.events == p.events + [TrainLogged(epoch, MeanLoss(s, epoch).value)]
  {
  }

  /** Once an epoch has raised, later epochs do not run. */
  lemma {:induction false} StopsAtError(s: Setup, start: Progress, n: int, m: int)
    requires ValidSetup(s) && start.error.None? && n <= m
    requires RunEpochs(s, start, n).error.Some?
    ensures RunEpochs(s, start, m) == RunEpochs(s, start, n)
    decreases m - n
  {
    if n < m {
      StopsAtError(s, start, n, m - 1);
    }
  }

  // ---------------------------------------------------------------------------
  // what a run guarantees
  // ---------------------------------------------------------------------------

  /** The options under which no epoch raises: a non-zero decay period, a
      loader that yields something, and a non-zero save frequency whenever
      the coordinator has to save. */
  predicate CanRun(s: Setup)
  {
    && s.config.every != 0
    && s.batches != []
    && !(IsCoordinator(s.topology) && s.config.checkpoint.Some? && s.config.saveFrequency == 0)
  }

  /** A run that has at least one epoch ends without error exactly when the
      options allow it; the errors it can end with are divisions by zero. */
  lemma {:induction false} RunSucceedsIff(s: Setup, start: Progress, n: int)
    requires ValidSetup(s) && start.error.None?
    ensures RunEpochs(s, start, n).error.None? <==> n < 1 || CanRun(s)
    ensures RunEpochs(s, start, n).error.Some? ==> RunEpochs(s, start, n).error == Some(ZeroDivision)
    decreases n
  {
    if n >= 1 {
      RunSucceedsIff(s, start, n - 1);
    }
  }

  /** The decay count the rate has gone through: the rate in force after
      `n` error-free epochs is `lr * factor^DecayCount(n)`. */
  lemma {:induction false} RunRate(s: Setup, start: Progress, n: int)
    requires ValidSetup(s) && start.error.None? && CanRun(s)
    ensures RunEpochs(s, start, n).rate == RateAt(start.rate, s.config.factor, s.config.every, n)
    decreases n
  {
    if n >= 1 {
      var p := RunEpochs(s, start, n - 1);
      assert p.error.None? && p.rate == RateAt(start.rate, s.config.factor, s.config.every, n - 1) by {
        RunRate(s, start, n - 1);
        RunSucceedsIff(s, start, n - 1);
      }
      assert RunEpochs(s, start, n).rate == DecayedRate(s, p.rate, n) by {
        EpochSucceeds(s, p, n);
      }
      RateAtStep(start.rate, s.config.factor, s.config.every, n);
    }
  }

  /** The optimizer steps of epochs `1..n` as the schedule prescribes them:
      every batch of epoch `e`, in order, at `RateAt(lr, factor, every, e)`. */
  function ScheduledUpdates(s: Setup, lr: real, n: int): (u: seq<Update>)
    requires s.config.every != 0
    decreases n
  {
    if n < 1 then []
    else ScheduledUpdates(s, lr, n - 1) + BatchUpdates(s.batches, RateAt(lr, s.config.factor, s.config.every, n))
  }

  /** An error-free run makes exactly the scheduled steps. */
  lemma {:induction false} RunUpdates(s: Setup, start: Progress, n: int)
    requires ValidSetup(s) && start.error.None? && CanRun(s)
    ensures RunEpochs(s, start, n).updates == start.updates + ScheduledUpdates(s, start.rate, n)
    decreases n
  {
    if n >= 1 {
      RunUpdates(s, start, n - 1);
      RunSucceedsIff(s, start, n - 1);
      RunRate(s, start, n - 1);
      EpochSucceeds(s, RunEpochs(s, start, n - 1), n);
      RunRate(s, start, n);
    }
  }

  /** The `j`-th step of epoch `e` uses the rate of epoch `e`: epoch 2 with
      a period of 2 already runs at the decayed rate. */
  lemma {:induction false} ScheduledUpdateAt(s: Setup, lr: real, n: int, e: int, j: nat)
    requires s.config.every != 0 && 1 <= e <= n && j < |s.batches|
    ensures |ScheduledUpdates(s, lr, n)| == n * |s.batches|
    ensures (e - 1) * |s.batches| + j < |ScheduledUpdates(s, lr, n)|
    ensures ScheduledUpdates(s, lr, n)[(e - 1) * |s.batches| + j]
            == Update(s.batches[j], RateAt(lr, s.config.factor, s.config.every, e))
    decreases n
  {
    var b := |s.batches|;
    ScheduledLength(s, lr, n - 1);
    assert n * b == (n - 1) * b + b;
    if e < n {
      ScheduledUpdateAt(s, lr, n - 1, e, j);
    } else {
      assert (e - 1) * b == (n - 1) * b;
    }
  }

  lemma {:induction false} ScheduledLength(s: Setup, lr: real, n: int)
    requires s.config.every != 0 && n >= 0
    ensures |ScheduledUpdates(s, lr, n)| == n * |s.batches|
    decreases n
  {
    if n >= 1 {
      ScheduledLength(s, lr, n - 1);
      assert n * |s.batches| == (n - 1) * |s.batches| + |s.batches|;
    }
  }

  /** `_trained` is set by the first epoch that gets through `_one_epoch`
      and never cleared. */
  lemma {:induction false} RunTrained(s: Setup, start: Progress, n: int)
    requires ValidSetup(s) && start.error.None?
    ensures RunEpochs(s, start, n).trained <==>
            start.trained || (n >= 1 && s.config.every != 0 && s.batches != [])
    decreases n
  {
    if n >= 1 {
      RunTrained(s, start, n - 1);
      RunSucceedsIff(s, start, n - 1);
    }
  }

  /** The loader is reset once per epoch. */
  lemma {:induction false} RunResets(s: Setup, start: Progress, n: int)
    requires ValidSetup(s) && start.error.None? && CanRun(s)
    ensures RunEpochs(s, start, n).resets == start.resets + (if n < 1 then 0 else n)
    decreases n
  {
    if n >= 1 {
      RunResets(s, start, n - 1);
      RunSucceedsIff(s, start, n - 1);
    }
  }

  /** A process other than the coordinator logs, saves and validates
      nothing. */
  lemma {:induction false} OthersStaySilent(s: Setup, start: Progress, n: int)
    requires ValidSetup(s) && start.error.None? && !IsCoordinator(s.topology)
    ensures RunEpochs(s, start, n).events == start.events
    decreases n
  {
    if n >= 1 {
      OthersStaySilent(s, start, n - 1);
    }
  }

  /** On the coordinator an error-free run produces, epoch after epoch, the
      events of each epoch. */
  lemma {:induction false} CoordinatorEvents(s: Setup, start: Progress, n: int, x: Event)
    requires ValidSetup(s) && start.error.None? && CanRun(s) && IsCoordinator(s.topology)
    ensures x in RunEpochs(s, start, n).events <==>
            x in start.events || exists e: nat :: 1 <= e <= n && x in EpochEvents(s, e)
    decreases n
  {
    if n >= 1 {
      CoordinatorEvents(s, start, n - 1, x);
      RunSucceedsIff(s, start, n - 1);
      var p := RunEpochs(s, start, n - 1);
      assert RunEpochs(s, start, n).events == p.events + EpochEvents(s, n);
      if x in EpochEvents(s, n) {
        assert 1 <= n <= n && x in EpochEvents(s, n);
      }
      if exists e: nat :: 1 <= e <= n && x in EpochEvents(s, e) {
        var e: nat :| 1 <= e <= n && x in EpochEvents(s, e);
        if e < n {
          assert 1 <= e <= n - 1 && x in EpochEvents(s, e);
        }
      }
    }
  }

  /** After an error-free run of `n` epochs the checkpoint of epoch `e` has
      been saved exactly when `e` is one of the epochs, the process is the
      coordinator, that prefix is configured and `e` is a multiple of the
      save frequency. */
  lemma SavedIff(s: Setup, n: int, prefix: string, e: nat)
    requires ValidSetup(s) && CanRun(s) && e >= 1
    ensures Saved(CheckpointName(prefix, e)) in RunEpochs(s, Start(s.config.lr, false), n).events <==>
            && e <= n && IsCoordinator(s.topology)
            && s.config.checkpoint == Some(prefix) && SavesAfter(e, s.config.saveFrequency)
  {
    var start := Start(s.config.lr, false);
    var x := Saved(CheckpointName(prefix, e));
    if !IsCoordinator(s.topology) {
      OthersStaySilent(s, start, n);
    } else {
      CoordinatorEvents(s, start, n, x);
      if x in RunEpochs(s, start, n).events {
        var e': nat :| 1 <= e' <= n && x in EpochEvents(s, e');
        var q := s.config.checkpoint.value;
        assert x == Saved(CheckpointName(q, e'));
        CheckpointNamesDistinct(q, e', prefix, e);
      }
      if e <= n && s.config.checkpoint == Some(prefix) && SavesAfter(e, s.config.saveFrequency) {
        assert x in EpochEvents(s, e);
      }
    }
  }

  /** After an error-free run of `n` epochs, validation has run after epoch
      `e` exactly when `e` is one of the epochs, the process is the
      coordinator and a validation dataset is given. */
  lemma ValidatedIff(s: Setup, n: int, e: nat)
    requires ValidSetup(s) && CanRun(s) && e >= 1
    ensures Validated(e) in RunEpochs(s, Start(s.config.lr, false), n).events <==>
            e <= n && IsCoordinator(s.topology) && s.hasValid
  {
    var start := Start(s.config.lr, false);
    if !IsCoordinator(s.topology) {
      OthersStaySilent(s, start, n);
    } else {
      CoordinatorEvents(s, start, n, Validated(e));
      if e <= n && s.hasValid {
        assert Validated(e) in EpochEvents(s, e);
      }
    }
  }

  /** The coordinator logs the mean loss of every epoch it runs. */
  lemma TrainLoggedEach(s: Setup, n: int, e: nat)
    requires ValidSetup(s) && CanRun(s) && IsCoordinator(s.topology) && 1 <= e <= n
    ensures TrainLogged(e, MeanLoss(s, e).value) in RunEpochs(s, Start(s.config.lr, false), n).events
  {
    CoordinatorEvents(s, Start(s.config.lr, false), n, TrainLogged(e, MeanLoss(s, e).value));
    assert TrainLogged(e, MeanLoss(s, e).value) in EpochEvents(s, e);
  }

  /** A checkpoint name determines both its prefix and its epoch: the
      prefix ends at the last dash, since the digits after it hold none. */
  lemma CheckpointNamesDistinct(p1: string, e1: nat, p2: string, e2: nat)
    requires CheckpointName(p1, e1) == CheckpointName(p2, e2)
    ensures p1 == p2 && e1 == e2
  {
    var path := CheckpointName(p1, e1);
    LastDash(p1, e1);
    LastDash(p2, e2);
    assert |p1| == |p2|;
    assert p1 == path[..|p1|] == p2;
    CheckpointNameInjective(p1, e1, e2);
  }

  /** In a checkpoint name the dash after the prefix is the last one. */
  lemma LastDash(prefix: string, epoch: nat)
    ensures var path := CheckpointName(prefix, epoch);
      && path[|prefix|] == '-'
      && forall k :: |prefix| < k < |path| ==> path[k] != '-'
  {
    var path := CheckpointName(prefix, epoch);
    CheckpointNameParts(prefix, epoch);
    var digits := path[|prefix| + 1..];
    forall k | |prefix| < k < |path| ensures path[k] != '-' {
      assert path[k] == digits[k - |prefix| - 1];
    }
    assert path[..|prefix| + 1][|prefix|] == '-';
  }
}
