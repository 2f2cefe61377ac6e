/**
 * The globals of neuralNetworkPlayground_2.js and the functions that update
 * them: model initialisation, dataset selection, the decision grid, the
 * visualisation update and the training run with its per-epoch callback.
 *
 * TensorFlow's `fit` is modelled as a driver that calls the callback for
 * epochs 0, 1, 2, ... up to `totalEpochs - 1` and stops after the first
 * callback that set `model.stopTraining`; it clears that flag when it
 * starts. The loss of each epoch and the model's predictions on the
 * decision grid after each epoch are inputs, since they come from training.
 */
module Playground2State {
  import opened JsValues
  import opened Playground2Data
  import opened Playground2Grid
  import opened Playground2Network
  import opened ModelLayers

  /** `totalEpochs`. */
  const TotalEpochs: nat := 100

  /** The loss `fit` reports at the end of each epoch. */
  type Losses = nat -> JsNumber

  /** The model's predictions on the decision grid after each epoch. */
  type PredictionsAfter = nat -> seq<JsNumber>

  /**
   * What one call of updateDataVisualization draws besides the network and
   * the data points: the decision boundary, only while training.
   */
  datatype Frame = Plain | WithBoundary(cells: seq<Cell>)

  /** The frame updateDataVisualization draws given the training flag and the predictions. */
  function FrameFor(isTraining: bool, predictions: seq<JsNumber>, w: int, h: int): Frame
  {
    if isTraining then WithBoundary(BoundaryCells(predictions, w, h)) else Plain
  }

  /**
   * The number of epochs `fit` runs when started at epoch e: it stops at
   * `total`, or right after the first epoch from e on whose loss is NaN.
   */
  function EpochsFrom(loss: Losses, e: nat, total: nat): (n: nat)
    requires e <= total
    ensures e <= n <= total
    ensures e < total ==> n > e
    ensures forall k: nat :: e <= k < n - 1 ==> !loss(k).NaN?
    ensures n == total || loss(n - 1).NaN?
    decreases total - e
  {
    if e == total then total
    else if loss(e).NaN? then e + 1
    else EpochsFrom(loss, e + 1, total)
  }

  /** The number of epoch callbacks of a training run of `total` epochs. */
  function EpochsRun(loss: Losses, total: nat): nat
  {
    EpochsFrom(loss, 0, total)
  }

  /** The first n losses, in epoch order. */
  function LossesUpTo(loss: Losses, n: nat): seq<JsNumber>
  {
    seq(n, e requires 0 <= e => loss(e))
  }

  /** The frames drawn by the callbacks of epochs 0 .. n - 1. */
  function FramesUpTo(isTraining: bool, predictions: PredictionsAfter, n: nat, w: int, h: int): seq<Frame>
  {
    seq(n, e requires 0 <= e => FrameFor(isTraining, predictions(e), w, h))
  }

  /** A run stops right after the first NaN loss: with a NaN at epoch s and none before, s + 1 epochs run. */
  lemma StopsAfterFirstNaN(loss: Losses, total: nat, s: nat)
    requires s < total && loss(s).NaN?
    requires forall e: nat :: e < s ==> !loss(e).NaN?
    ensures EpochsRun(loss, total) == s + 1
  {
  }

  /** Without a NaN loss every epoch runs: an infinite loss does not stop training. */
  lemma RunsAllEpochsWithoutNaN(loss: Losses, total: nat)
    requires forall e: nat :: e < total ==> !loss(e).NaN?
    ensures EpochsRun(loss, total) == total
  {
  }

  /** With losses 1, 1, 1, NaN, ... a 100-epoch run stops after 4 epochs; with Infinity in place of NaN it runs all 100. */
  lemma NaNVersusInfinity()
    ensures EpochsRun(e => if e == 3 then NaN else Finite(1.0), TotalEpochs) == 4
    ensures EpochsRun(e => if e == 3 then PosInfinity else Finite(1.0), TotalEpochs) == 100
  {
    StopsAfterFirstNaN(e => if e == 3 then NaN else Finite(1.0), TotalEpochs, 3);
    RunsAllEpochsWithoutNaN(e => if e == 3 then PosInfinity else Finite(1.0), TotalEpochs);
  }

  /** The playground's global state. */
  class Playground {
    /** `model.layers`. */
    var layers: seq<Dense>
    /** `model.stopTraining`. */
    var stopTraining: bool
    var layerVisuals: seq<LayerVisual>
    var currentData: seq<Point>
    var isTraining: bool
    var currentEpoch: int
    var lossHistory: seq<JsNumber>
    var decisionBoundaryGrid: seq<GridPoint>
    /** Whether the dataset selector and the generate, train and data-flow buttons are disabled. */
    var controlsDisabled: bool
    /** What every call of updateDataVisualization drew, in order. */
    var frames: seq<Frame>
    /** `dataAreaWidth`, set at setup to half the canvas width. */
    const dataAreaWidth: int
    /** `canvasHeight`. */
    const canvasHeight: int

    /** The globals as declared, with the data area fixed at setup. */
    constructor ()
      ensures dataAreaWidth == DataAreaWidth && canvasHeight == CanvasHeight
      ensures layers == [] && !stopTraining && layerVisuals == [] && currentData == []
      ensures !isTraining && currentEpoch == 0 && lossHistory == [] && decisionBoundaryGrid == []
      ensures !controlsDisabled && frames == []
    {
      dataAreaWidth := DataAreaWidth;
      canvasHeight := CanvasHeight;
      layers := [];
      stopTraining := false;
      layerVisuals := [];
      currentData := [];
      isTraining := false;
      currentEpoch := 0;
      lossHistory := [];
      decisionBoundaryGrid := [];
      controlsDisabled := false;
      frames := [];
    }

    /** prepareVisualizationData: rebuild `layerVisuals` from the model's layers, one entry per layer. */
    method PrepareVisualizationData()
      modifies this`layerVisuals
      ensures layerVisuals == VisualsOf(layers)
    {
      layerVisuals := [];
      var i := 0;
      while i < |layers|
        invariant 0 <= i <= |layers|
        invariant layerVisuals == VisualsOf(layers)[..i]
      {
        layerVisuals := layerVisuals + [LayerVisual(layers[i].units, Zeros(layers[i].units))];
        i := i + 1;
      }
    }

    /**
     * initializeModel(activation): a fresh model of dense layers with 5, 4
     * and 1 units (the last one sigmoid), then prepareVisualizationData.
     */
    method InitializeModel(activation: string)
      modifies this`layers, this`stopTraining, this`layerVisuals
      ensures layers == PlaygroundLayers(activation) && !stopTraining
      ensures layerVisuals == VisualsOf(layers)
    {
      layers := PlaygroundLayers(activation);
      stopTraining := false;
      PrepareVisualizationData();
    }

    /** generateDecisionGrid: replace the grid with the normalized inputs of the data area. */
    method GenerateDecisionGrid()
      modifies this`decisionBoundaryGrid
      ensures decisionBoundaryGrid == DecisionGrid(dataAreaWidth, canvasHeight)
    {
      decisionBoundaryGrid := Playground2Grid.GenerateDecisionGrid(dataAreaWidth, canvasHeight);
    }

    /**
     * updateDataVisualization: while training, draw the decision boundary
     * from the model's predictions on the grid; then the network and the
     * data points.
     */
    method UpdateDataVisualization(predictions: seq<JsNumber>)
      modifies this`frames
      ensures frames == old(frames) + [FrameFor(isTraining, predictions, dataAreaWidth, canvasHeight)]
    {
      if isTraining {
        var cells, _ := DrawDecisionBoundary(predictions, dataAreaWidth, canvasHeight);
        frames := frames + [WithBoundary(cells)];
      } else {
        frames := frames + [Plain];
      }
    }

    /**
     * selectDataset: generate the selected dataset and make it current
     * before validating it; if it is invalid, stop there; otherwise clear
     * the training flag and redraw.
     */
    method SelectDataset(selection: string, gen: Generated)
      modifies this`currentData, this`isTraining, this`frames
      ensures currentData == GenerateData(selection, gen, dataAreaWidth, canvasHeight)
      ensures !ValidateData(currentData) ==> isTraining == old(isTraining) && frames == old(frames)
      ensures ValidateData(currentData) ==> !isTraining && frames == old(frames) + [Plain]
    {
      currentData := GenerateData(selection, gen, dataAreaWidth, canvasHeight);
      if !ValidateData(currentData) {
        return;
      }
      isTraining := false;
      // The flag is false, so no prediction is read.
      UpdateDataVisualization([]);
    }

    /**
     * The `onEpochEnd` callback: record the epoch count and the loss, ask
     * for a stop on a NaN loss, and redraw.
     */
    method OnEpochEnd(epoch: nat, loss: JsNumber, predictions: seq<JsNumber>)
      modifies this`currentEpoch, this`lossHistory, this`stopTraining, this`frames
      ensures currentEpoch == epoch + 1
      ensures lossHistory == old(lossHistory) + [loss]
      ensures stopTraining == (old(stopTraining) || loss.NaN?)
      ensures frames == old(frames) + [FrameFor(isTraining, predictions, dataAreaWidth, canvasHeight)]
    {
      currentEpoch := epoch + 1;
      lossHistory := lossHistory + [loss];
      if IsNaN(Num(loss)) {
        stopTraining := true;
      }
      UpdateDataVisualization(predictions);
    }

    /**
     * `model.fit` as seen by the playground: clear the stop flag, then run
     * the callback for each epoch in order until `total` epochs have run
     * or a callback has set the flag.
     */
    method Fit(total: nat, loss: Losses, predictions: PredictionsAfter)
      modifies this`currentEpoch, this`lossHistory, this`stopTraining, this`frames
      ensures var n := EpochsRun(loss, total);
        && lossHistory == old(lossHistory) + LossesUpTo(loss, n)
        && currentEpoch == (if n == 0 then old(currentEpoch) else n)
        && stopTraining == (n > 0 && loss(n - 1).NaN?)
        && frames == old(frames) + FramesUpTo(isTraining, predictions, n, dataAreaWidth, canvasHeight)
    {
      ghost var n := EpochsRun(loss, total);
      stopTraining := false;
      var epoch := 0;
      while epoch < total && !stopTraining
        invariant 0 <= epoch <= n
        invariant stopTraining == (epoch > 0 && loss(epoch - 1).NaN?)
        invariant lossHistory == old(lossHistory) + LossesUpTo(loss, epoch)
        invariant currentEpoch == (if epoch == 0 then old(currentEpoch) else epoch)
        invariant frames == old(frames) + FramesUpTo(isTraining, predictions, epoch, dataAreaWidth, canvasHeight)
      {
        OnEpochEnd(epoch, loss(epoch), predictions(epoch));
        assert LossesUpTo(loss, epoch + 1) == LossesUpTo(loss, epoch) + [loss(epoch)];
        assert FramesUpTo(isTraining, predictions, epoch + 1, dataAreaWidth, canvasHeight) ==
          FramesUpTo(isTraining, predictions, epoch, dataAreaWidth, canvasHeight) +
          [FrameFor(isTraining, predictions(epoch), dataAreaWidth, canvasHeight)];
        epoch := epoch + 1;
      }
    }

    /**
     * trainModel: rebuild the model and the decision grid and set the
     * training flag; if the current data is invalid, return at once (the
     * flag stays set and nothing else is reset). Otherwise disable the
     * controls, reset the epoch count and the loss history and build the
     * input tensors. On an empty dataset, which passes validation, that
     * throws, and trainModel rejects with the flag set and the controls
     * disabled. Otherwise run `fit` for `totalEpochs` epochs, then clear the
     * flag and enable the controls. `threw` tells whether it rejected.
     */
    method TrainModel(activation: string, loss: Losses, predictions: PredictionsAfter) returns (threw: bool)
      modifies this
      ensures layers == PlaygroundLayers(activation) && layerVisuals == VisualsOf(layers)
      ensures decisionBoundaryGrid == DecisionGrid(dataAreaWidth, canvasHeight)
      ensures currentData == old(currentData)
      ensures threw <==> ValidateData(currentData) && |currentData| == 0
      ensures !ValidateData(currentData) ==>
        && isTraining && !stopTraining
        && currentEpoch == old(currentEpoch) && lossHistory == old(lossHistory)
        && controlsDisabled == old(controlsDisabled) && frames == old(frames)
      ensures threw ==>
        && isTraining && controlsDisabled && !stopTraining
        && currentEpoch == 0 && lossHistory == [] && frames == old(frames)
      ensures ValidateData(currentData) && |currentData| > 0 ==>
        var n := EpochsRun(loss, TotalEpochs);
        && !isTraining && !controlsDisabled
        && currentEpoch == n && lossHistory == LossesUpTo(loss, n)
        && stopTraining == loss(n - 1).NaN?
        && frames == old(frames) + FramesUpTo(true, predictions, n, dataAreaWidth, canvasHeight)
    {
      InitializeModel(activation);
      GenerateDecisionGrid();
      isTraining := true;
      if !ValidateData(currentData) {
        return false;
      }
      threw := RunTraining(TotalEpochs, loss, predictions);
    }

    /**
     * The part of trainModel after the data has passed validation. Building
     * `tf.tensor2d` from the points without a shape throws when there are
     * none, since the shape inferred from an empty array is one-dimensional.
     */
    method RunTraining(total: nat, loss: Losses, predictions: PredictionsAfter) returns (threw: bool)
      requires isTraining && total > 0
      modifies this`controlsDisabled, this`currentEpoch, this`lossHistory, this`stopTraining, this`frames, this`isTraining
      ensures threw <==> |currentData| == 0
      ensures threw ==>
        && isTraining && controlsDisabled && currentEpoch == 0 && lossHistory == []
        && stopTraining == old(stopTraining) && frames == old(frames)
      ensures !threw ==>
        var n := EpochsRun(loss, total);
        && !isTraining && !controlsDisabled
        && currentEpoch == n && lossHistory == LossesUpTo(loss, n)
        && stopTraining == loss(n - 1).NaN?
        && frames == old(frames) + FramesUpTo(true, predictions, n, dataAreaWidth, canvasHeight)
    {
      controlsDisabled := true;
      currentEpoch := 0;
      lossHistory := [];
      if |currentData| == 0 {
        return true;
      }
      Fit(total, loss, predictions);
      isTraining := false;
      controlsDisabled := false;
      threw := false;
    }
  }

  /**
   * A session: select the linear dataset, then train with a loss that
   * becomes NaN at epoch 3. Training stops after four epochs, one loss per
   * epoch is recorded, each epoch drew the decision boundary, and the
   * controls are enabled again.
   */
  method LinearSessionStoppedByNaN(gen: Generated, predictions: PredictionsAfter)
    returns (epochs: int, losses: seq<JsNumber>, framesDrawn: nat, training: bool, disabled: bool)
    ensures epochs == 4 && losses == [Finite(1.0), Finite(1.0), Finite(1.0), NaN]
    ensures framesDrawn == 5 && !training && !disabled
  {
    var p := new Playground();
    p.InitializeModel("relu");
    GenerateDataOutcomes("linear", gen, p.dataAreaWidth, p.canvasHeight);
    p.SelectDataset("linear", gen);
    var loss: Losses := e => if e == 3 then NaN else Finite(1.0);
    StopsAfterFirstNaN(loss, TotalEpochs, 3);
    var threw := p.TrainModel("relu", loss, predictions);
    assert LossesUpTo(loss, 4) == [loss(0), loss(1), loss(2), loss(3)];
    epochs, losses, framesDrawn, training, disabled := p.currentEpoch, p.lossHistory, |p.frames|, p.isTraining, p.controlsDisabled;
  }

  /**
   * A session whose dataset fails validation: trainModel returns with the
   * training flag set, so a later updateDataVisualization draws the
   * decision boundary although no training ran.
   */
  method InvalidDataLeavesTrainingFlag(bad: Generated, loss: Losses, predictions: PredictionsAfter, shown: seq<JsNumber>)
    returns (training: bool, epochs: int, last: Frame)
    requires !ValidateData(bad.spiral)
    ensures training && epochs == 0
    ensures last.WithBoundary?
  {
    var p := new Playground();
    p.SelectDataset("spiral", bad);
    var threw := p.TrainModel("relu", loss, predictions);
    p.UpdateDataVisualization(shown);
    training, epochs, last := p.isTraining, p.currentEpoch, p.frames[|p.frames| - 1];
  }

  /**
   * A session with a selection generateData does not know: the empty
   * dataset it yields passes validation, the tensor construction throws,
   * and the page is left with the training flag set, the controls
   * disabled and no epoch run.
   */
  method UnknownSelectionLeavesControlsDisabled(selection: string, gen: Generated, loss: Losses, predictions: PredictionsAfter)
    returns (threw: bool, training: bool, disabled: bool, epochs: int)
    requires !KnownSelection(selection)
    ensures threw && training && disabled && epochs == 0
  {
    var p := new Playground();
    GenerateDataOutcomes(selection, gen, p.dataAreaWidth, p.canvasHeight);
    p.SelectDataset(selection, gen);
    threw := p.TrainModel("relu", loss, predictions);
    training, disabled, epochs := p.isTraining, p.controlsDisabled, p.currentEpoch;
  }
}
