/** The training objects: the optimizer's trainer, the batch loader, the
    base model with its epoch loop, and the supervised model whose `fit`
    prepares a dataset and a loader and runs that loop. The numerical work
    of a batch (forward, backward, clipping) is the `engine` parameter: the
    summed loss of batch `j` in epoch `e`. */
module Training {
  import opened Results
  import opened Encoding
  import opened Datasets
  import opened Schedule
  import opened FitRun

  /** The optimizer state the loop sees: its learning rate and the steps it
      has taken. */
  class Trainer {
    const optimizer: string
    const distributed: bool
    var learningRate: real
    var updates: seq<Update>

    /** `gluon.Trainer(params, optimizer, {'learning_rate': lr})`, or the
        distributed trainer when `distributed`. */
    constructor (optimizer: string, lr: real, distributed: bool)
      ensures this.optimizer == optimizer && this.distributed == distributed
      ensures learningRate == lr && updates == []
    {
      this.optimizer := optimizer;
      this.distributed := distributed;
      learningRate := lr;
      updates := [];
    }

    /** `trainer.set_learning_rate(rate)`. */
    method SetLearningRate(rate: real)
      modifies this
      ensures learningRate == rate && updates == old(updates)
    {
      learningRate := rate;
    }

    /** `trainer.step(batchSize)`: one update at the current rate. */
    method Step(batchSize: nat)
      modifies this
      ensures updates == old(updates) + [Update(batchSize, learningRate)]
      ensures learningRate == old(learningRate)
    {
      updates := updates + [Update(batchSize, learningRate)];
    }
  }

  /** A batch loader: the configuration it was built with, the sample count
      of each batch it yields in turn, and how often it has been reset. */
  class DataLoader {
    const config: LoaderConfig
    const batches: seq<nat>
    var resets: nat

    constructor (config: LoaderConfig, batches: seq<nat>)
      ensures this.config == config && this.batches == batches && resets == 0
    {
      this.config := config;
      this.batches := batches;
      resets := 0;
    }

    /** `data_iter.reset()`. */
    method Reset()
      modifies this
      ensures resets == old(resets) + 1
    {
      resets := resets + 1;
    }
  }

  class BaseModel {
    const topology: Topology
    var prefetch: int
    var trained: bool
    /** The names of the blocks in `_trainable`. */
    var trainable: set<string>
    /** The calls made into the model's hooks, in order. */
    var log: seq<Event>

    constructor (topology: Topology)
      ensures this.topology == topology
      ensures prefetch == 0 && !trained && trainable == {} && log == []
    {
      this.topology := topology;
      prefetch := 0;
      trained := false;
      trainable := {};
      log := [];
    }

    /** `_before_epoch`: multiplies the trainer's rate by the factor when
        asked to. */
    method BeforeEpoch(updateLr: bool, factor: real, trainer: Trainer)
      modifies trainer
      ensures trainer.learningRate == if updateLr then old(trainer.learningRate) * factor else old(trainer.learningRate)
      ensures trainer.updates == old(trainer.updates)
    {
      if updateLr {
        var rate := trainer.learningRate;
        trainer.SetLearningRate(rate * factor);
      }
    }

    /** `_one_epoch`: one optimizer step per batch at the current rate, the
        loader reset once it is exhausted, and the mean per-batch loss, which
        is a division by zero when there was no batch. */
    method OneEpoch(s: Setup, trainer: Trainer, loader: DataLoader, epoch: int)
      returns (r: Result<real, TrainingError>)
      requires ValidSetup(s) && loader.batches == s.batches
      modifies trainer, loader
      ensures r == MeanLoss(s, epoch)
      ensures trainer.updates == old(trainer.updates) + BatchUpdates(s.batches, old(trainer.learningRate))
      ensures trainer.learningRate == old(trainer.learningRate)
      ensures loader.resets == old(loader.resets) + 1
    {
      var totalLoss := 0.0;
      var numBatch := 0;
      while numBatch < |loader.batches|
        invariant 0 <= numBatch <= |s.batches|
        invariant totalLoss == LossSum(s, epoch, numBatch)
        invariant trainer.updates == old(trainer.updates) + BatchUpdates(s.batches, trainer.learningRate)[..numBatch]
        invariant trainer.learningRate == old(trainer.learningRate)
        invariant loader.resets == old(loader.resets)
      {
        var steps := loader.batches[numBatch];
        var loss := s.engine(epoch, numBatch);
        trainer.Step(steps);
        var batchLoss := loss / (steps as real);
        totalLoss := totalLoss + batchLoss;
        numBatch := numBatch + 1;
        assert BatchUpdates(s.batches, trainer.learningRate)[..numBatch]
            == BatchUpdates(s.batches, trainer.learningRate)[..numBatch - 1] + [Update(steps, trainer.learningRate)];
      }
      assert BatchUpdates(s.batches, trainer.learningRate)[..numBatch] == BatchUpdates(s.batches, trainer.learningRate);
      loader.Reset();
      if numBatch == 0 {
        return Failure(ZeroDivision);
      }
      return Success(totalLoss / (numBatch as real));
    }

    /** One pass of `_fit`'s epoch loop, epoch `epoch` of a run that has
        reached `p` without error: the decay test, `_before_epoch`,
        `_one_epoch`, `_trained`, and the coordinator's logging, saving and
        validation. The trainer, the loader, `_trained` and the hook calls
        end as `RunEpoch` describes, including the error it stops with. */
    method Epoch(s: Setup, trainer: Trainer, loader: DataLoader, epoch: nat,
                 ghost p: Progress, ghost logBase: seq<Event>, ghost resetsBase: nat)
      returns (error: Option<TrainingError>)
      requires ValidSetup(s) && loader.batches == s.batches && s.topology == topology
      requires epoch >= 1 && p.error.None?
      requires log == logBase + p.events && trained == p.trained
      requires trainer.updates == p.updates && trainer.learningRate == p.rate
      requires loader.resets == resetsBase + p.resets
      modifies this, trainer, loader
      ensures error == RunEpoch(s, p, epoch).error
      ensures log == logBase + RunEpoch(s, p, epoch).events && trained == RunEpoch(s, p, epoch).trained
      ensures trainer.updates == RunEpoch(s, p, epoch).updates && trainer.learningRate == RunEpoch(s, p, epoch).rate
      ensures loader.resets == resetsBase + RunEpoch(s, p, epoch).resets
      ensures trainable == old(trainable) && prefetch == old(prefetch)
    {
      var c := s.config;
      if c.every == 0 {
        return Some(ZeroDivision);
      }
      BeforeEpoch(DecaysBefore(epoch, c.every), c.factor, trainer);
      ghost var rate := trainer.learningRate;
      assert rate == DecayedRate(s, p.rate, epoch);
      var avgLoss := OneEpoch(s, trainer, loader, epoch);
      assert trainer.updates == p.updates + BatchUpdates(s.batches, rate) && trainer.learningRate == rate;
      if avgLoss.Failure? {
        return Some(avgLoss.error);
      }
      trained := true;
      if IsCoordinator(topology) {
        error := AfterEpoch(s, epoch, avgLoss.value);
        if error.Some? {
          EpochFailsSaving(s, p, epoch);
          assert log == logBase + (p.events + [TrainLogged(epoch, avgLoss.value)]);
          return;
        }
      }
      EpochSucceeds(s, p, epoch);
      error := None;
    }

    /** `_fit`: fails its assertion before anything else when no block is
        trainable; otherwise broadcasts the parameters when distributed,
        creates the trainer at `lr` and runs the epochs as `RunEpochs`
        describes them, leaving the trainer, the loader, `_trained` and the
        hook calls as that run leaves them. */
    method FitEpochs(s: Setup, loader: DataLoader) returns (trainer: Trainer?, error: Option<TrainingError>)
      requires ValidSetup(s) && loader.batches == s.batches && s.topology == topology
      modifies this, loader
      ensures trainable == old(trainable) && prefetch == old(prefetch)
      ensures old(trainable) == {} ==>
                && trainer == null && error == Some(NoTrainableParameters)
                && log == old(log) && trained == old(trained) && loader.resets == old(loader.resets)
      ensures old(trainable) != {} ==>
                var p := RunEpochs(s, Start(s.config.lr, old(trained)), s.config.nEpochs);
                && trainer != null && fresh(trainer)
                && trainer.optimizer == s.config.optimizer
                && trainer.distributed == IsDistributed(topology, s.config.multigpu)
                && log == old(log) + (if IsDistributed(topology, s.config.multigpu) then [ParametersBroadcast] else [])
                          + p.events
                && trainer.updates == p.updates && trainer.learningRate == p.rate
                && loader.resets == old(loader.resets) + p.resets
                && trained == p.trained && error == p.error
    {
      if trainable == {} {
        return null, Some(NoTrainableParameters);
      }
      var c := s.config;
      var distributed := IsDistributed(topology, c.multigpu);
      if distributed {
        log := log + [ParametersBroadcast];
      }
      trainer := new Trainer(c.optimizer, c.lr, distributed);
      ghost var start := Start(c.lr, trained);
      ghost var logBefore := log;
      ghost var resetsBefore := loader.resets;
      var epoch := 1;
      while epoch <= c.nEpochs
        invariant epoch >= 1 && (epoch == 1 || epoch - 1 <= c.nEpochs)
        invariant trainable == old(trainable) && prefetch == old(prefetch)
        invariant fresh(trainer) && trainer.optimizer == c.optimizer && trainer.distributed == distributed
        invariant var p := RunEpochs(s, start, epoch - 1);
          && p.error.None?
          && log == logBefore + p.events
          && trainer.updates == p.updates && trainer.learningRate == p.rate
          && loader.resets == resetsBefore + p.resets
          && trained == p.trained
      {
        ghost var p := RunEpochs(s, start, epoch - 1);
        assert RunEpochs(s, start, epoch) == RunEpoch(s, p, epoch);
        error := Epoch(s, trainer, loader, epoch, p, logBefore, resetsBefore);
        if error.Some? {
          StopsAtError(s, start, epoch, c.nEpochs);
          return;
        }
        epoch := epoch + 1;
      }
      return trainer, None;
    }

    /** What the coordinator does once an epoch has trained: logs the mean
        loss, saves a checkpoint when one is due and validates when there is
        validation data; a zero save frequency with a checkpoint prefix
        raises once the loss is logged. */
    method AfterEpoch(s: Setup, epoch: nat, loss: real) returns (error: Option<TrainingError>)
      requires ValidSetup(s) && s.batches != [] && loss == MeanLoss(s, epoch).value
      modifies this
      ensures trainable == old(trainable) && prefetch == old(prefetch) && trained == old(trained)
      ensures error.Some? <==> s.config.checkpoint.Some? && s.config.saveFrequency == 0
      ensures error.Some? ==> error == Some(ZeroDivision) && log == old(log) + [TrainLogged(epoch, loss)]
      ensures error.None? ==> log == old(log) + EpochEvents(s, epoch)
    {
      var c := s.config;
      log := log + [TrainLogged(epoch, loss)];
      if c.checkpoint.Some? {
        if c.saveFrequency == 0 {
          return Some(ZeroDivision);
        }
        if SavesAfter(epoch, c.saveFrequency) {
          log := log + [Saved(CheckpointName(c.checkpoint.value, epoch))];
        }
      }
      if s.hasValid {
        log := log + [Validated(epoch)];
      }
      return None;
    }

    /** `_build`: the model's blocks are created and become trainable. */
    method Build(blocks: set<string>)
      modifies this
      ensures trainable == old(trainable) + blocks && log == old(log) + [Built]
      ensures trained == old(trained) && prefetch == old(prefetch)
    {
      trainable := trainable + blocks;
      log := log + [Built];
    }

    /** `_build_dataloader`: a fresh loader over `batches` configured by
        `DataloaderConfig` from this model's `_prefetch` and process. */
    method BuildDataloader(batches: seq<nat>, batchSize: int, shuffle: bool, lastBatch: string)
      returns (loader: DataLoader)
      ensures fresh(loader) && loader.resets == 0 && loader.batches == batches
      ensures loader.config == DataloaderConfig(prefetch, topology, batchSize, shuffle, lastBatch)
    {
      loader := new DataLoader(DataloaderConfig(prefetch, topology, batchSize, shuffle, lastBatch), batches);
    }
  }

  /** A supervised model: the base model's state (`base`) plus the vocabulary,
      the label index and the metadata it keeps. */
  class DeepSupervisedModel {
    const base: BaseModel
    var vocab: Option<Vocab>
    var label2idx: Option<map<string, int>>
    var meta: map<string, map<string, int>>

    constructor (topology: Topology, vocab: Option<Vocab>, label2idx: Option<map<string, int>>)
      ensures fresh(base) && base.topology == topology
      ensures !base.trained && base.trainable == {} && base.log == [] && base.prefetch == 0
      ensures this.vocab == vocab && this.label2idx == label2idx && meta == map[]
    {
      base := new BaseModel(topology);
      this.vocab := vocab;
      this.label2idx := label2idx;
      meta := map[];
    }

    /** `fit`: records `prefetch`; adopts the training dataset's vocabulary
        and label index only where the model has none, and then also
        records the index in `meta['label2idx']`; builds (adding `blocks` to
        the trainable blocks) only an untrained model; validates when a
        validation dataset is given or both `valid_X` and `valid_y` are
        non-empty; and runs the epoch loop over a fresh shuffling loader built
        with the new `prefetch`, which it returns. */
    method Fit(train: SupervisedDataset, validGiven: bool, validX: seq<string>, validY: seq<string>,
               batches: seq<nat>, batchSize: int, lastBatch: string, config: FitConfig, prefetch: int,
               blocks: set<string>, engine: (int, int) -> real)
      returns (loader: DataLoader, trainer: Trainer?, error: Option<TrainingError>)
      requires PositiveSizes(batches)
      modifies this, base
      ensures base.prefetch == prefetch
      ensures fresh(loader) && loader.batches == batches
      ensures loader.config == DataloaderConfig(prefetch, base.topology, batchSize, true, lastBatch)
      ensures vocab == if old(vocab).None? then Some(train.vocab) else old(vocab)
      ensures label2idx == if old(label2idx).None? then Some(train.label2idx) else old(label2idx)
      ensures meta == if old(label2idx).None? then old(meta)["label2idx" := train.label2idx] else old(meta)
      ensures base.trainable == if old(base.trained) then old(base.trainable) else old(base.trainable) + blocks
      ensures var built := if old(base.trained) then [] else [Built];
              var s := Setup(config, base.topology, batches, engine, validGiven || (validX != [] && validY != []));
              var p := RunEpochs(s, Start(config.lr, old(base.trained)), config.nEpochs);
              if base.trainable == {} then
                && trainer == null && error == Some(NoTrainableParameters)
                && base.log == old(base.log) + built && base.trained == old(base.trained)
                && loader.resets == 0
              else
                && trainer != null && fresh(trainer)
                && base.log == old(base.log) + built
                               + (if IsDistributed(base.topology, config.multigpu) then [ParametersBroadcast] else [])
                               + p.events
                && trainer.updates == p.updates && trainer.learningRate == p.rate
                && loader.resets == p.resets
                && base.trained == p.trained && error == p.error
    {
      base.prefetch := prefetch;
      AdoptIndexes(train);
      if !base.trained {
        base.Build(blocks);
      }
      ghost var logBuilt := base.log;
      assert logBuilt == old(base.log) + (if old(base.trained) then [] else [Built]);
      var hasValid := validGiven || (validX != [] && validY != []);
      loader := base.BuildDataloader(batches, batchSize, true, lastBatch);
      var s := Setup(config, base.topology, batches, engine, hasValid);
      trainer, error := base.FitEpochs(s, loader);
    }

    /** Takes the training dataset's vocabulary and label index where the
        model has none; a newly taken index is also recorded in the
        metadata. */
    method AdoptIndexes(train: SupervisedDataset)
      modifies this
      ensures vocab == if old(vocab).None? then Some(train.vocab) else old(vocab)
      ensures label2idx == if old(label2idx).None? then Some(train.label2idx) else old(label2idx)
      ensures meta == if old(label2idx).None? then old(meta)["label2idx" := train.label2idx] else old(meta)
    {
      if vocab.None? {
        vocab := Some(train.vocab);
      }
      if label2idx.None? {
        label2idx := Some(train.label2idx);
        meta := meta["label2idx" := train.label2idx];
      }
    }
  }
}
