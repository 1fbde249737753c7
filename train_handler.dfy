/** studio/handlers/train.rs: the training lifecycle as the handlers drive
    it. Starting checks that an architecture, hyperparameters and a
    dataset are there and that no job runs; the job's end drains the
    statistics it sent and records Done or Failed; stopping raises the
    running job's flag. The thread, the channel and the clock are outside
    the model: what they deliver is given to the methods. */
module TrainHandler {
  import opened Base
  import opened Text
  import opened Dense
  import opened TrainLoop
  import opened State

  /** The flash of a start without an architecture or a dataset. */
  const NotReadyText: string := "Set up architecture and dataset before training."

  /** `handle_start`: it returns whether a job was started. Without a
      spec, hyperparameters or a dataset only the error flash is set; while
      a job runs nothing changes; otherwise the job starts with the
      configured number of epochs, an empty history and no trained network. */
  method HandleStart(st: StudioState) returns (started: bool)
    modifies st
    ensures !(old(st.spec).Some? && old(st.hyperparams).Some? && old(st.dataset).Some?) ==>
      (!started && st.flash == Some(ErrorFlash(NotReadyText)) && st.training == old(st.training)
       && st.spec == old(st.spec) && st.hyperparams == old(st.hyperparams) && st.dataset == old(st.dataset)
       && st.epochHistory == old(st.epochHistory) && st.trainedNetwork == old(st.trainedNetwork))
    ensures old(st.spec).Some? && old(st.hyperparams).Some? && old(st.dataset).Some? && old(st.training).Running? ==>
      !started && unchanged(st)
    ensures started <==> old(st.spec).Some? && old(st.hyperparams).Some? && old(st.dataset).Some?
                         && !old(st.training).Running?
    ensures started ==> (st.training == Running(false, old(st.hyperparams).value.epochs)
      && st.epochHistory == [] && st.trainedNetwork.None?
      && st.spec == old(st.spec) && st.hyperparams == old(st.hyperparams) && st.dataset == old(st.dataset)
      && st.flash == old(st.flash))
  {
    if st.spec.None? || st.hyperparams.None? || st.dataset.None? {
      st.flash := Some(ErrorFlash(NotReadyText));
      return false;
    }
    if st.training.Running? {
      return false;
    }
    var totalEpochs := st.hyperparams.value.epochs;
    st.training := Running(false, totalEpochs);
    st.epochHistory := [];
    st.trainedNetwork := None;
    started := true;
  }

  /** The validation arguments of the job: an empty validation set is
      passed as None, a non-empty one as itself. */
  function ValidationArgs(ds: DatasetState): (r: (Option<seq<seq<real>>>, Option<seq<seq<real>>>))
    ensures r.0.None? <==> ds.valInputs == []
    ensures r.1.None? <==> ds.valLabels == []
    ensures r.0.Some? ==> r.0.value == ds.valInputs
    ensures r.1.Some? ==> r.1.value == ds.valLabels
  {
    (if |ds.valInputs| == 0 then None else Some(ds.valInputs),
     if |ds.valLabels| == 0 then None else Some(ds.valLabels))
  }

  /** The job's `TrainConfig`: the epochs, batch size and loss of the saved
      architecture, with the progress channel and the stop flag attached. */
  function JobConfig(spec: NetworkSpec, hp: Hyperparams): (r: TrainConfig)
    ensures r.epochs == hp.epochs && r.batchSize == hp.batchSize && r.lossType == spec.loss
    ensures r.hasProgress && r.hasStopFlag
  {
    TrainConfig(hp.epochs, hp.batchSize, spec.loss, true, true)
  }

  /** Where a trained model is saved: the name in the `trained_models`
      directory, with the `.json` extension. */
  function ModelPath(name: string): (r: string)
    ensures StartsWith(r, "trained_models/") && EndsWith(r, ".json")
    ensures |r| == |name| + 20 && r[15..|r| - 5] == name
  {
    "trained_models/" + name + ".json"
  }

  /** The failure reason when the model could not be saved. */
  function SaveFailedText(path: string): string
  {
    "Training finished but could not save model to '" + path + "'."
  }

  /** The drain loop: every statistics message still in the channel, in
      the order it was sent. */
  method Drain(channel: seq<EpochStats>) returns (buf: seq<EpochStats>)
    ensures buf == channel
  {
    buf := [];
    var i := 0;
    while i < |channel|
      invariant 0 <= i <= |channel| && buf == channel[..i]
    {
      buf := buf + [channel[i]];
      i := i + 1;
    }
  }

  /** The end of the job thread, once it holds the lock again: while the
      status is still Running the statistics left in the channel are
      appended to the history in the order sent; the status becomes Done
      when the model was saved (whether or not a stop was asked for, which
      `wasStopped` tells) and Failed otherwise; the trained network is kept
      in both cases. */
  method FinishTraining(st: StudioState, network: seq<LayerState>, name: string, saveOk: bool,
                        elapsedMs: nat, wasStopped: bool, channel: seq<EpochStats>)
    modifies st
    ensures st.epochHistory == old(st.epochHistory) + (if old(st.training).Running? then channel else [])
    ensures saveOk ==> st.training == Done(ModelPath(name), elapsedMs, wasStopped)
    ensures !saveOk ==> st.training == Failed(SaveFailedText(ModelPath(name)))
    ensures st.trainedNetwork == Some(network)
    ensures st.spec == old(st.spec) && st.hyperparams == old(st.hyperparams) && st.dataset == old(st.dataset)
    ensures st.flash == old(st.flash)
  {
    var path := ModelPath(name);
    var remaining: seq<EpochStats> := [];
    if st.training.Running? {
      remaining := Drain(channel);
    }
    var i := 0;
    while i < |remaining|
      invariant 0 <= i <= |remaining|
      invariant st.epochHistory == old(st.epochHistory) + remaining[..i]
      invariant st.training == old(st.training)
      invariant st.spec == old(st.spec) && st.hyperparams == old(st.hyperparams) && st.dataset == old(st.dataset)
      invariant st.flash == old(st.flash)
    {
      st.epochHistory := st.epochHistory + [remaining[i]];
      i := i + 1;
    }
    assert remaining[..|remaining|] == remaining;
    if saveOk {
      st.training := Done(path, elapsedMs, wasStopped);
    } else {
      st.training := Failed(SaveFailedText(path));
    }
    st.trainedNetwork := Some(network);
  }

  /** `handle_stop`: the running job's stop flag is raised; in any other
      status nothing changes. */
  method HandleStop(st: StudioState)
    modifies st
    ensures old(st.training).Running? ==>
      st.training == Running(true, old(st.training).totalEpochs)
    ensures !old(st.training).Running? ==> st.training == old(st.training)
    ensures st.spec == old(st.spec) && st.hyperparams == old(st.hyperparams) && st.dataset == old(st.dataset)
    ensures st.epochHistory == old(st.epochHistory) && st.trainedNetwork == old(st.trainedNetwork)
    ensures st.flash == old(st.flash)
  {
    if st.training.Running? {
      st.training := Running(true, st.training.totalEpochs);
    }
  }
}
