/**
 * The globals of neuralNetworkPlayground.js and the functions that update
 * them: the model's layers and `layerVisuals` (initializeModel), the
 * current dataset and the training flag (selectDataset, trainModel), and
 * what every call of updateDataVisualization draws.
 *
 * `model.fit` is modelled as a driver that runs the epoch callback for
 * epochs 0 to 99 in order and then resolves; training itself, the losses
 * and the predictions are the library's, and the predictions the model
 * gives after each epoch are an input.
 */
module PlaygroundState {
  import opened JsValues
  import opened ModelLayers
  import opened PlaygroundData
  import opened PlaygroundDrawing

  /** `epochs: 100` in trainModel's call of `model.fit`. */
  const TotalEpochs: nat := 100

  /** The model's predictions for the current data after each epoch. */
  type PredictionsAfter = nat -> seq<JsNumber>

  /**
   * What the generators whose coordinates are not modelled produce: the
   * concentric points as they are, and the coordinates the cluster, moon
   * and spiral generators draw, point by point.
   */
  datatype Generated = Generated(
    concentric: seq<Point>, clusterCoords: Coordinates, moonCoords: Coordinates, spiralCoords: Coordinates)

  /**
   * The dataset selectDataset leaves in `currentData`: the named
   * generator's output, or the old dataset for a selection the switch does
   * not name, since the switch has no default case.
   */
  function Selected(selection: string, gen: Generated, current: seq<Point>, w: int, h: int): seq<Point>
    requires w > 0 && w % 10 == 0
  {
    match selection
    case "linear" => LinearData(w, h)
    case "concentric" => gen.concentric
    case "twoClusters" => TwoGroups(gen.clusterCoords, PointsPerGroup)
    case "checkerboard" => Checkerboard(w, h)
    case "moons" => TwoGroups(gen.moonCoords, PointsPerGroup)
    case "spiral" => Spiral(gen.spiralCoords)
    case _ => current
  }

  /** The selections the switch names. */
  predicate KnownSelection(selection: string)
  {
    selection in {"linear", "concentric", "twoClusters", "checkerboard", "moons", "spiral"}
  }

  /**
   * An unknown selection keeps the current dataset; a known one replaces it
   * with a dataset that does not depend on it. The two-cluster and moon
   * datasets have 100 points labelled 0 followed by 100 labelled 1.
   */
  lemma SelectedOutcomes(selection: string, gen: Generated, current: seq<Point>, w: int, h: int)
    requires w > 0 && w % 10 == 0
    ensures !KnownSelection(selection) ==> Selected(selection, gen, current, w, h) == current
    ensures KnownSelection(selection) ==> Selected(selection, gen, current, w, h) == Selected(selection, gen, [], w, h)
    ensures selection in {"twoClusters", "moons"} ==>
      var d := Selected(selection, gen, current, w, h);
      |d| == 200 && forall k :: 0 <= k < 200 ==> (d[k].classLabel == 0 <==> k < 100)
  {
    if selection == "twoClusters" {
      TwoGroupsLabels(gen.clusterCoords, PointsPerGroup);
    } else if selection == "moons" {
      TwoGroupsLabels(gen.moonCoords, PointsPerGroup);
    }
  }

  /** One call of updateDataVisualization that got past its guard: the ground truth, then the boundary. */
  datatype Frame = Frame(truth: seq<Glyph>, boundary: seq<Glyph>)

  function FrameOf(data: seq<Point>, predictions: seq<JsNumber>): Frame
  {
    Frame(TruthGlyphs(data), BoundaryGlyphs(data, predictions))
  }

  /** The frames of n epoch callbacks that each drew, epoch e with the predictions after epoch e. */
  function EpochFrames(data: seq<Point>, predictions: PredictionsAfter, n: nat): seq<Frame>
  {
    seq(n, e requires 0 <= e => FrameOf(data, predictions(e)))
  }

  /** The playground's global state. */
  class Playground {
    /** `model.layers`. */
    var layers: seq<Dense>
    var layerVisuals: seq<LayerVisual>
    var currentData: seq<Point>
    var isTraining: bool
    /** What every call of updateDataVisualization drew, in order. */
    var frames: seq<Frame>
    /** p5's `width` and `height`, fixed by `createCanvas` at setup. */
    const width: int
    const height: int

    /** The globals as declared, with the 300 x 400 canvas of setup. */
    constructor ()
      ensures width == CanvasWidth && height == CanvasHeight
      ensures layers == [] && layerVisuals == [] && currentData == [] && !isTraining && frames == []
    {
      width := CanvasWidth;
      height := CanvasHeight;
      layers := [];
      layerVisuals := [];
      currentData := [];
      isTraining := false;
      frames := [];
    }

    /** prepareVisualizationData: rebuild `layerVisuals` from the model's layers, one entry per layer. */
    method PrepareVisualizationData()
      modifies this`layerVisuals
      ensures layerVisuals == VisualsOf(layers)
    {
      layerVisuals := [];
      var i := 0;
      while i < |layers|
        invariant 0 <= i <= |layers|
        invariant layerVisuals == VisualsOf(layers)[..i]
      {
        layerVisuals := layerVisuals + [LayerVisual(layers[i].units, Zeros(layers[i].units))];
        i := i + 1;
      }
    }

    /**
     * initializeModel(activation): empty the layer list and `layerVisuals`,
     * add dense layers of 5, 4 and 1 units (the last one sigmoid), then
     * prepareVisualizationData.
     */
    method InitializeModel(activation: string)
      modifies this`layers, this`layerVisuals
      ensures layers == PlaygroundLayers(activation)
      ensures layerVisuals == VisualsOf(layers)
    {
      layers := [];
      layerVisuals := [];
      layers := layers + [Dense(5, activation)];
      layers := layers + [Dense(4, activation)];
      layers := layers + [Dense(1, "sigmoid")];
      PrepareVisualizationData();
    }

    /**
     * updateDataVisualization(predictions): nothing unless training has
     * started; then redraw the ground truth and the decision boundary of
     * the current data.
     */
    method UpdateDataVisualization(predictions: seq<JsNumber>)
      modifies this`frames
      ensures frames == old(frames) + (if isTraining then [FrameOf(currentData, predictions)] else [])
    {
      if !isTraining {
        return;
      }
      var truth := VisualizeData(currentData);
      var boundary := [];
      if isTraining {
        boundary := DrawDecisionBoundary(currentData, predictions);
      }
      frames := frames + [Frame(truth, boundary)];
    }

    /**
     * selectDataset(selection): run the generator the selection names (none
     * for an unknown one), clear the training flag, then
     * updateDataVisualization, which with the flag cleared draws nothing.
     */
    method SelectDataset(selection: string, gen: Generated)
      requires width > 0 && width % 10 == 0
      modifies this`currentData, this`isTraining, this`frames
      ensures currentData == Selected(selection, gen, old(currentData), width, height)
      ensures !isTraining && frames == old(frames)
    {
      match selection {
        case "linear" =>
          currentData := GenerateLinearData(width, height);
        case "concentric" =>
          currentData := gen.concentric;
        case "twoClusters" =>
          currentData := GenerateTwoGroups(gen.clusterCoords, PointsPerGroup);
        case "checkerboard" =>
          currentData := GenerateCheckerboard(width, height);
        case "moons" =>
          currentData := GenerateTwoGroups(gen.moonCoords, PointsPerGroup);
        case "spiral" =>
          currentData := GenerateSpiral(gen.spiralCoords);
        case _ =>
      }
      isTraining := false;
      UpdateDataVisualization([]);
    }

    /**
     * `model.fit` with trainModel's callback: for each epoch in order,
     * updateDataVisualization with the predictions after that epoch.
     */
    method Fit(total: nat, predictions: PredictionsAfter)
      modifies this`frames
      ensures frames == old(frames) + (if isTraining then EpochFrames(currentData, predictions, total) else [])
    {
      var epoch := 0;
      while epoch < total
        invariant 0 <= epoch <= total
        invariant frames == old(frames) + (if isTraining then EpochFrames(currentData, predictions, epoch) else [])
      {
        UpdateDataVisualization(predictions(epoch));
        assert EpochFrames(currentData, predictions, epoch + 1) ==
          EpochFrames(currentData, predictions, epoch) + [FrameOf(currentData, predictions(epoch))];
        epoch := epoch + 1;
      }
    }

    /**
     * trainModel(activation): rebuild the model, run `fit` for 100 epochs,
     * and only once it has resolved set the training flag. The callbacks
     * therefore draw only if the flag was already set before.
     */
    method TrainModel(activation: string, predictions: PredictionsAfter)
      modifies this`layers, this`layerVisuals, this`frames, this`isTraining
      ensures layers == PlaygroundLayers(activation) && layerVisuals == VisualsOf(layers)
      ensures isTraining && currentData == old(currentData)
      ensures frames == old(frames) +
        (if old(isTraining) then EpochFrames(currentData, predictions, TotalEpochs) else [])
    {
      InitializeModel(activation);
      Fit(TotalEpochs, predictions);
      isTraining := true;
    }
  }

  /**
   * A session: select a dataset, whichever, and train; the run draws
   * nothing, because the flag is set only after fit. Train again: now every
   * one of the 100 epochs draws. Select the dataset again: the flag is
   * cleared, and the next run draws nothing.
   */
  method TrainTwiceThenReselect(selection: string, gen: Generated, predictions: PredictionsAfter)
    returns (firstRun: int, secondRun: int, afterReselect: int)
    ensures firstRun == 0 && secondRun == 100 && afterReselect == 0
  {
    var p := new Playground();
    p.InitializeModel("relu");
    p.SelectDataset(selection, gen);
    var before := |p.frames|;
    p.TrainModel("relu", predictions);
    firstRun := |p.frames| - before;
    before := |p.frames|;
    p.TrainModel("relu", predictions);
    secondRun := |p.frames| - before;
    p.SelectDataset(selection, gen);
    before := |p.frames|;
    p.TrainModel("tanh", predictions);
    afterReselect := |p.frames| - before;
  }
}
