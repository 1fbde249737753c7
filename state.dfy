/** studio/state.rs: what the studio remembers between requests, behind its
    one lock: the saved architecture and hyperparameters, the loaded
    dataset, the training lifecycle, the epoch history, the trained network
    and a one-shot flash message. */
module State {
  import opened Base
  import opened Activation
  import opened Dense
  import opened TrainLoop

  /** `Hyperparams`. */
  datatype Hyperparams = Hyperparams(learningRate: real, batchSize: nat, epochs: nat)

  /** `Hyperparams::default()`. */
  function DefaultHyperparams(): (r: Hyperparams)
    ensures r.learningRate > 0.0 && r.batchSize == 32 && r.epochs == 50
  {
    Hyperparams(0.01, 32, 50)
  }

  /** `LayerSpec` (src/network/spec.rs). */
  datatype LayerSpec = LayerSpec(size: nat, inputSize: nat, activation: ActivationFunction)

  /** `InputType` (src/network/metadata.rs). */
  datatype InputType = Numeric | ImageGrayscale(width: nat, height: nat) | ImageRgb(width: nat, height: nat)

  /** `ModelMetadata` (src/network/metadata.rs). */
  datatype ModelMetadata = ModelMetadata(description: Option<string>, inputType: Option<InputType>,
                                         outputLabels: Option<seq<string>>)

  /** `NetworkSpec` (src/network/spec.rs). */
  datatype NetworkSpec = NetworkSpec(name: string, layers: seq<LayerSpec>, loss: LossType,
                                     metadata: Option<ModelMetadata>)

  /** `DatasetState`: the train and validation halves, their shape, and the
      preview rows of the dataset page. */
  datatype DatasetState = DatasetState(
    trainInputs: seq<seq<real>>, trainLabels: seq<seq<real>>,
    valInputs: seq<seq<real>>, valLabels: seq<seq<real>>,
    featureCount: nat, labelCount: nat, totalRows: nat, valSplitPct: nat,
    sourceName: string, previewRows: seq<(seq<real>, seq<real>)>)

  /** `TrainingStatus`. A running job holds the stop flag it shares with
      the training thread; the channel of epoch statistics and the clock are
      outside the model. */
  datatype TrainingStatus =
    | Idle
    | Running(stopRequested: bool, totalEpochs: nat)
    | Done(modelPath: string, elapsedTotalMs: nat, wasStopped: bool)
    | Failed(reason: string)

  datatype FlashKind = Success | Error

  /** `FlashMessage`: a notice for the next page rendered. */
  datatype FlashMessage = FlashMessage(kind: FlashKind, text: string)

  /** `FlashMessage::success`. */
  function SuccessFlash(text: string): (r: FlashMessage)
    ensures r.kind == FlashKind.Success && r.text == text
  {
    FlashMessage(FlashKind.Success, text)
  }

  /** `FlashMessage::error`. */
  function ErrorFlash(text: string): (r: FlashMessage)
    ensures r.kind == FlashKind.Error && r.text == text
  {
    FlashMessage(FlashKind.Error, text)
  }

  // The tab bits of the navigation bar, in the order of the tabs.
  const ArchitectBit: bv8 := 0x01
  const DatasetBit: bv8 := 0x02
  const TrainBit: bv8 := 0x04
  const EvaluateBit: bv8 := 0x08
  const TestBit: bv8 := 0x10

  /** `StudioState`. */
  class StudioState {
    var spec: Option<NetworkSpec>
    var hyperparams: Option<Hyperparams>
    var dataset: Option<DatasetState>
    var training: TrainingStatus
    var epochHistory: seq<EpochStats>
    var trainedNetwork: Option<seq<LayerState>>
    var flash: Option<FlashMessage>

    /** `StudioState::new()`: nothing saved, nothing loaded, not training. */
    constructor ()
      ensures spec.None? && hyperparams.None? && dataset.None?
      ensures training == Idle && epochHistory == [] && trainedNetwork.None? && flash.None?
    {
      spec := None;
      hyperparams := None;
      dataset := None;
      training := Idle;
      epochHistory := [];
      trainedNetwork := None;
      flash := None;
    }

    /** `tab_unlock_mask`: Architect and Test always, Dataset once an
        architecture is saved, Train once a dataset is loaded, Evaluate once
        training is done; no other bit. */
    method TabUnlockMask() returns (mask: bv8)
      ensures mask & ArchitectBit == ArchitectBit && mask & TestBit == TestBit
      ensures mask & DatasetBit == DatasetBit <==> spec.Some?
      ensures mask & TrainBit == TrainBit <==> dataset.Some?
      ensures mask & EvaluateBit == EvaluateBit <==> training.Done?
      ensures mask <= 0x1F
    {
      mask := ArchitectBit;
      mask := mask | TestBit;
      if spec.Some? {
        mask := mask | DatasetBit;
      }
      if dataset.Some? {
        mask := mask | TrainBit;
      }
      if training.Done? {
        mask := mask | EvaluateBit;
      }
    }

    /** `take_flash`: hands out the flash and leaves none, so a second call
        right after returns None. */
    method TakeFlash() returns (f: Option<FlashMessage>)
      modifies this
      ensures f == old(flash) && flash.None?
      ensures spec == old(spec) && hyperparams == old(hyperparams) && dataset == old(dataset)
      ensures training == old(training) && epochHistory == old(epochHistory)
      ensures trainedNetwork == old(trainedNetwork)
    {
      f := flash;
      flash := None;
    }
  }
}
