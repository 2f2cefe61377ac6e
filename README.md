# Neural network playground, modelled in Dafny

The repository is a browser playground for a small neural network. It has two revisions, `js/neuralNetworkPlayground.js` and `js/neuralNetworkPlayground_2.js`. Each revision:

- generates a 2-D dataset of labelled points;
- trains a TensorFlow.js network of dense layers with 5, 4 and 1 units on it;
- draws the data, the model's decision boundary and the network with p5.js.

This project models the bookkeeping under that glue, separately for each revision:

- the dataset generators that step over pixels;
- the validation checks and the dataset selector;
- the decision-boundary grid and the loop that reads the predictions back in grid order;
- the per-layer visualisation records and the drawing layout of the network;
- the global training state driven by the per-epoch callback.

Modules:

- `JsValues`: JavaScript numbers (NaN and the infinities included), `typeof`, the coercion done by the global `isNaN`/`isFinite`, and comparisons against a constant.
- `PixelGrids`: the nested loop `for x = 0; x < w; x += s / for y = 0; y < h; y += s` as a sequence of pixels. It comes with lemmas on length, bounds, index and order.
- `ModelLayers`: `model.layers` and `layerVisuals`, which both revisions build the same way.
- `Playground2Data`, `Playground2Grid`, `Playground2Network`, `Playground2State`: `js/neuralNetworkPlayground_2.js`. This revision has a 600 x 300 canvas. Its data area is the left 300 x 300 and holds normalized coordinates.
- `PlaygroundData`, `PlaygroundDrawing`, `PlaygroundState`: `js/neuralNetworkPlayground.js`. This revision has a 300 x 400 canvas and uses pixel coordinates.

The global state of each revision is a class whose fields are the script's globals. Each function that changes globals is a method with a `modifies` clause on the fields it writes. Each generator or drawing loop is a method, proved equal to a function of its inputs, and the properties are proved as lemmas about those functions.

The following are inputs rather than computed:

- the model's predictions after each epoch;
- the losses reported by `fit`;
- the weights;
- the coordinates drawn from `random`, `randomGaussian`, `cos` and `sin`.

TensorFlow's `fit` is modelled as a driver. It clears `model.stopTraining` when it starts. It then calls the `onEpochEnd` callback for epochs 0, 1, 2, … in order. It stops when it reaches the epoch count, or right after a callback has set `model.stopTraining`. This is an assumption about the library, whose source is not part of this model.

## Model

| member | source | states |
|---|---|---|
| Playground2Data.ValidateData | js/neuralNetworkPlayground_2.js:277-283 | validateData: `every` point passes the five field checks, not NaN and finite for x and for y, and a label `=== 0` or `=== 1` |
| Playground2Data.ValidateDataShapeAndType | js/neuralNetworkPlayground_2.js:297-313 | returns true iff the argument is an array, is non-empty, and every point has `typeof` "number" for x, y and label |
| Playground2Data.ValidateDataMeaning | js/neuralNetworkPlayground_2.js:277-283 | validateData holds iff every point's x and y coerce to finite numbers and its label is exactly the number 0 or 1; on numeric fields, iff x, y are finite and the label is 0 or 1 |
| Playground2Data.EmptyDataset | js/neuralNetworkPlayground_2.js:277-305 | the empty dataset passes validateData but is rejected by validateDataShapeAndType |
| Playground2Data.ChecksDiffer | js/neuralNetworkPlayground_2.js:277-313 | the two checks are incomparable: a NaN coordinate passes the type check only; a numeric string, `null` or boolean coordinate passes validateData only |
| Playground2Data.TypeCheckOnValidData | js/neuralNetworkPlayground_2.js:277-313 | on a dataset that passes validateData, the type check passes iff the dataset is non-empty and every x and y is a number: the labels always are, so only a coerced coordinate can fail it |
| Playground2Data.GenerateLinearData | js/neuralNetworkPlayground_2.js:546-557 | the nested loops push exactly the linear points of the step-20 pixel grid, in column-major order |
| Playground2Data.LinearDataFacts | js/neuralNetworkPlayground_2.js:546-557 | ceil(W/20)·ceil(H/20) points; point k is pixel k of the step-20 grid, normalized; each valid, with coordinates in [0,1) and label 0 iff its normalized x is below 1/2 |
| Playground2Data.LinearDataCount | js/neuralNetworkPlayground_2.js:546-557 | 225 points on the 300 x 300 data area |
| Playground2Data.GenerateData | js/neuralNetworkPlayground_2.js:204-233 | generateData: the switch on the selection, each case the named generator's output, and `[]` in the default case |
| Playground2Data.GenerateDataOutcomes | js/neuralNetworkPlayground_2.js:204-233 | an unknown selection gives the empty dataset, which passes validateData; the linear selection always gives a valid dataset, non-empty on a non-empty data area |
| Playground2Grid.GenerateDecisionGrid | js/neuralNetworkPlayground_2.js:504-514 | the grid is replaced by `[i/W, j/H]` for every step-10 pixel (i, j) of the data area, outer loop over i |
| Playground2Grid.DecisionGridFacts | js/neuralNetworkPlayground_2.js:504-514 | ceil(W/10)·ceil(H/10) inputs, all in [0,1)×[0,1); input k is pixel (10·(k / rows), 10·(k % rows)) normalized |
| Playground2Grid.DecisionGridCount | js/neuralNetworkPlayground_2.js:504-514 | 900 inputs on the 300 x 300 data area |
| Playground2Grid.PredictedClassThreshold | js/neuralNetworkPlayground_2.js:526 | class 1 iff the prediction exists and is above 0.5 (or +Infinity); exactly 0.5, NaN and a missing prediction give class 0 |
| Playground2Grid.DrawDecisionBoundary | js/neuralNetworkPlayground_2.js:517-535 | cell k is drawn at the k-th grid pixel offset by resolution/4 with the class of `predictions[k]`, each index read once, and `index` ends equal to the grid length |
| Playground2Grid.CellMatchesGridInput | js/neuralNetworkPlayground_2.js:507-526 | the pixel of the k-th drawn cell is the pixel whose normalized coordinates are the k-th grid input |
| Playground2Network.MaxNodes | js/neuralNetworkPlayground_2.js:453 | an upper bound on every layer's node count that some layer attains |
| Playground2Network.DrawNetwork | js/neuralNetworkPlayground_2.js:450-488 | draws exactly the connection lines of the edge enumeration and then exactly the node circles |
| Playground2Network.DrawConnections | js/neuralNetworkPlayground_2.js:456-473 | the outer connection loop draws the lines of every pair of consecutive columns, in order |
| Playground2Network.DrawLayerConnections | js/neuralNetworkPlayground_2.js:462-472 | the lines into column i, ordered by source node j |
| Playground2Network.DrawFan | js/neuralNetworkPlayground_2.js:463-471 | the lines from node j of column i-1 to each node k of column i, green iff the weight is above 0 |
| Playground2Network.DrawNodes | js/neuralNetworkPlayground_2.js:476-487 | one circle per node, column by column |
| Playground2Network.DrawColumn | js/neuralNetworkPlayground_2.js:479-486 | the circles of column i at x = 300 + xSpacing·(i+1), y = ySpacing·(j+1) |
| Playground2Network.LineCount | js/neuralNetworkPlayground_2.js:456-473 | the number of lines is Σ nodes[i-1]·nodes[i] over consecutive layers |
| Playground2Network.LinesAreEdges | js/neuralNetworkPlayground_2.js:456-473 | every line joins node j < nodes[i-1] of column i-1 to node k < nodes[i] of column i, coloured by weight (i, j, k) |
| Playground2Network.LinesJoinCircles | js/neuralNetworkPlayground_2.js:456-487 | both ends of every line are centres of drawn circles, and a line is green iff its weight is > 0, so a zero weight is red |
| Playground2Network.NodesInsideNetworkArea | js/neuralNetworkPlayground_2.js:476-487 | every node centre lies strictly inside the network half: x in (300, 600), y in (0, 300) |
| Playground2Network.CirclesInsideNetworkArea | js/neuralNetworkPlayground_2.js:476-487 | the centre of every drawn circle lies strictly inside the network half (the circles themselves, of diameter 20, can cross an edge when a layer has many nodes) |
| Playground2Network.PlaygroundNetworkDrawing | js/neuralNetworkPlayground_2.js:450-488 | for the [5, 4, 1] network: 24 lines and 10 circles |
| ModelLayers.PlaygroundVisuals | js/neuralNetworkPlayground.js:10-43 | after initializeModel, layerVisuals has three entries with 5, 4 and 1 nodes and that many zero activations; the output layer is sigmoid and the first two layers use the chosen activation |
| Playground2State.EpochsFrom | js/neuralNetworkPlayground_2.js:419-437 | the number of epochs run is at most the total and at least one; no epoch before the last had a NaN loss; it is the total unless the last one had a NaN loss |
| Playground2State.StopsAfterFirstNaN | js/neuralNetworkPlayground_2.js:426-428 | with the first NaN loss at epoch s, exactly s+1 epochs run |
| Playground2State.RunsAllEpochsWithoutNaN | js/neuralNetworkPlayground_2.js:426-428 | without a NaN loss every epoch runs |
| Playground2State.NaNVersusInfinity | js/neuralNetworkPlayground_2.js:426-428 | a NaN loss at epoch 3 stops a 100-epoch run after 4 epochs; an Infinity loss at that epoch does not stop it |
| Playground2State.Playground.constructor | js/neuralNetworkPlayground_2.js:4-25 | the globals as declared: no layers or visuals, no data, flag cleared, epoch 0, empty loss history, controls enabled, nothing drawn; the data area is half the 600-pixel canvas and 300 high; the decision grid starts empty as declared at line 502 |
| Playground2State.Playground.PrepareVisualizationData | js/neuralNetworkPlayground_2.js:167-176 | layerVisuals becomes one record per model layer, with nodes = units and zeroed activations |
| Playground2State.Playground.InitializeModel | js/neuralNetworkPlayground_2.js:179-191 | a fresh model of three dense layers, 5, 4, 1 units, output sigmoid, with its layerVisuals |
| Playground2State.Playground.GenerateDecisionGrid | js/neuralNetworkPlayground_2.js:504-514 | the global grid becomes the decision grid of the data area |
| Playground2State.Playground.UpdateDataVisualization | js/neuralNetworkPlayground_2.js:491-501 | appends one frame, which holds the decision boundary exactly when the training flag is set |
| Playground2State.Playground.SelectDataset | js/neuralNetworkPlayground_2.js:286-295 | the file declares selectDataset twice in the p5 closure (lines 194-199 and 286-295); the later declaration is the one in effect and is the one modelled: currentData is replaced before validation; on invalid data the flag and the drawing are left untouched, on valid data the flag is cleared and one frame is drawn |
| Playground2State.Playground.OnEpochEnd | js/neuralNetworkPlayground_2.js:422-435 | currentEpoch = epoch + 1, the loss is appended, the stop flag is raised on a NaN loss, one frame is drawn |
| Playground2State.Playground.Fit | js/neuralNetworkPlayground_2.js:419-437 | after the run: the history holds the losses of the epochs run, currentEpoch is their number, the stop flag says whether the last loss was NaN, and one frame was drawn per epoch |
| Playground2State.Playground.TrainModel | js/neuralNetworkPlayground_2.js:391-446 | rebuilds the model and the grid and sets the flag; on invalid data it returns with the flag set and nothing else reset; on the empty dataset, which passes validation, it throws at the tensor construction with the flag set, the controls disabled and the epoch count and history reset; otherwise it trains and ends with the flag cleared and the controls enabled |
| Playground2State.Playground.RunTraining | js/neuralNetworkPlayground_2.js:400-446 | controls disabled, epoch and history reset; it throws iff the dataset is empty (`tf.tensor2d` without a shape), leaving the flag set and the controls disabled; otherwise fit runs, then the flag is cleared and the controls enabled |
| Playground2State.LinearSessionStoppedByNaN | js/neuralNetworkPlayground_2.js:391-446 | with the linear dataset and a NaN loss at epoch 3: 4 epochs, 4 losses recorded, 5 frames, flag cleared, controls enabled |
| Playground2State.InvalidDataLeavesTrainingFlag | js/neuralNetworkPlayground_2.js:391-400 | after trainModel on invalid data the flag stays set and no epoch ran, so the next redraw shows a decision boundary; every generator of this revision yields valid data, so the branch is reached only with a dataset they do not produce, here an invalid spiral |
| Playground2State.UnknownSelectionLeavesControlsDisabled | js/neuralNetworkPlayground_2.js:391-414 | an unknown selection yields the empty dataset, validation passes, the tensor construction throws, and the flag stays set with the controls disabled and no epoch run |
| PlaygroundData.GenerateLinearData | js/neuralNetworkPlayground.js:71-80 | the nested loops push exactly the linear points of the step-20 pixel grid, in column-major order |
| PlaygroundData.LinearDataFacts | js/neuralNetworkPlayground.js:71-80 | ceil(w/20)·ceil(h/20) points; point k is pixel (20·(k / rows), 20·(k % rows)) in [0,w)×[0,h), label 0 or 1, 0 iff x < w/2 |
| PlaygroundData.LinearDataCount | js/neuralNetworkPlayground.js:71-80 | 300 points on the 300 x 400 canvas |
| PlaygroundData.GenerateGrid | js/neuralNetworkPlayground.js:255-263 | the nested loops push exactly the step-20 pixels `[x, y]` of the canvas |
| PlaygroundData.GridFacts | js/neuralNetworkPlayground.js:255-263 | ceil(w/20)·ceil(h/20) pixels, all in [0,w)×[0,h), in strictly increasing x-major order |
| PlaygroundData.GenerateCheckerboard | js/neuralNetworkPlayground.js:135-147 | the loops, stepping by width/10, push exactly the tile-centre points with parity labels |
| PlaygroundData.CheckerboardCount | js/neuralNetworkPlayground.js:135-147 | 10 columns of ceil(h/tile) tiles |
| PlaygroundData.CheckerboardTile | js/neuralNetworkPlayground.js:135-147 | the point of tile (i, j) is its centre, labelled (i + j) mod 2 |
| PlaygroundData.CheckerboardInside | js/neuralNetworkPlayground.js:135-147 | each centre lies inside the canvas horizontally and less than half a tile below its bottom |
| PlaygroundData.CheckerboardOnCanvas | js/neuralNetworkPlayground.js:135-147 | 140 points on the 300 x 400 canvas; the last, at (285, 405) with label 0, lies below the canvas |
| PlaygroundData.GenerateTwoGroups | js/neuralNetworkPlayground.js:106-171 | both loops of generateTwoClusters (lines 106-133) and of generateMoons (lines 149-171) push n points labelled 0, then n labelled 1, at the drawn coordinates |
| PlaygroundData.TwoGroupsLabels | js/neuralNetworkPlayground.js:119-130 | exactly 2n points; point k is labelled 0 iff k < n and 1 iff k ≥ n |
| PlaygroundData.GenerateSpiral | js/neuralNetworkPlayground.js:173-197 | two arms of turns·pointsPerTurn points, labelled i%2 and (i+1)%2 |
| PlaygroundData.SpiralLabels | js/neuralNetworkPlayground.js:179-194 | 400 points; the first arm alternates from 0, and point i of the second arm has the opposite label of point i of the first |
| PlaygroundDrawing.VisualizeData | js/neuralNetworkPlayground.js:204-219 | one ground-truth glyph per point: a circle with blue fill for label 0, a plus sign with red fill otherwise |
| PlaygroundDrawing.DrawDecisionBoundary | js/neuralNetworkPlayground.js:300-318 | one glyph per point, in data order, with the shape of its label and the colour chosen by `predictions[i]` |
| PlaygroundDrawing.BoundaryColours | js/neuralNetworkPlayground.js:306-326 | for a numeric prediction both shapes get red fill iff the prediction is ≥ 0.5; a NaN or missing one gives circles red fill and plus signs blue fill |
| PlaygroundDrawing.BoundaryMatchesTruth | js/neuralNetworkPlayground.js:306-317 | for a 0/1 label and a numeric prediction, the boundary glyph equals the ground-truth glyph iff the predicted class is the label |
| PlaygroundState.SelectedOutcomes | js/neuralNetworkPlayground.js:44-69 | an unknown selection keeps currentData; a known one replaces it independently of the old data; clusters and moons give 100 zeros then 100 ones |
| PlaygroundState.Playground.constructor | js/neuralNetworkPlayground.js:198-201 | `currentData = []` and `isTraining = false` as declared here, with `layerVisuals = []` (line 7), no layers and nothing drawn, on the 300 x 400 canvas of `createCanvas` (line 405) |
| PlaygroundState.Playground.PrepareVisualizationData | js/neuralNetworkPlayground.js:34-43 | layerVisuals becomes one record per model layer, with nodes = units and zeroed activations |
| PlaygroundState.Playground.InitializeModel | js/neuralNetworkPlayground.js:10-31 | the layer list and layerVisuals are emptied, then three dense layers of 5, 4, 1 units (output sigmoid) and their records are built |
| PlaygroundState.Playground.UpdateDataVisualization | js/neuralNetworkPlayground.js:329-342 | draws nothing while the flag is false; otherwise appends the ground truth and the boundary of the current data |
| PlaygroundState.Playground.SelectDataset | js/neuralNetworkPlayground.js:44-69 | currentData becomes the named dataset (unchanged for an unknown selection), the flag is cleared on every call, and nothing is drawn |
| PlaygroundState.Playground.Fit | js/neuralNetworkPlayground.js:233-242 | one frame per epoch if the flag is set during the run, none otherwise |
| PlaygroundState.Playground.TrainModel | js/neuralNetworkPlayground.js:221-247 | rebuilds the model; the 100 callbacks draw only if the flag was already set; the flag is set only after fit |
| PlaygroundState.TrainTwiceThenReselect | js/neuralNetworkPlayground.js:221-244 | after selecting a dataset, the first training run draws 0 frames, the second 100, and a run after selecting again 0 |

## Left out

- TensorFlow.js is not modelled: model construction, `compile` with the learning rate parsed from the page, training, `predict`, `getWeights`/`arraySync`, `layer.apply`, tensors and their disposal, `checkForNaN`, `preTrainingChecks` and `visualizeDataFlow`. Predictions, losses and weights are inputs.
- In `js/neuralNetworkPlayground_2.js` a frame records only whether the decision boundary was drawn and, if so, its cells. The network drawing and the data points that each `updateDataVisualization` also draws are not part of a frame, and that revision's `visualizeData` (lines 242-271) is not modelled.
- `validateModelArchitecture` inspects TensorFlow layer internals (`inputShape`, `batchInputShape`) that are not part of this model.
- Tensor-leak accounting is left out: the prediction tensors and rebuilt models that are never disposed are library resource state.
- p5.js rendering is reduced to the sequence of shapes drawn with their class or colour. Left out: stroke, opacity (`p.map` of the weight), `lerpColor` of activations, sizes, `offscreenGraphics`, `loop`/`noLoop`/`redraw`, the draw loop of each revision, and DOM and console output (`updateTrainingStatus`, the status text). Only the "controls disabled" state of the four controls is kept.
- The coordinates of the concentric, cluster, moon and spiral generators use `cos`, `sin`, `random` and `randomGaussian`. They are inputs. For revision 2 the whole output of these generators is an input. For the first revision the whole output of the concentric generator is an input, and for the cluster, moon and spiral generators the points are built from input coordinates with their label sequences modelled.
- The checkerboard generator of `js/neuralNetworkPlayground_2.js` (lines 607-620) adds 0.1 to a float until it reaches 1. Binary rounding makes that loop run 11 times per axis, which real arithmetic cannot reproduce, so its output is an input.
- PlaygroundData.GenerateCheckerboard: only widths that are positive multiples of 10 are modelled. For those, `width / 10` is a whole number of pixels and the float loop is exact; the source's width is 300.
- The edge-drawing block of `drawNetwork` in `js/neuralNetworkPlayground.js` (lines 363-394) reads `xSpacing` and `ySpacing`, which are declared inside the preceding `forEach` callback. It would throw a ReferenceError whenever there is more than one layer, so that revision's `drawNetwork` is not modelled.
- `updateVisualization` in `js/neuralNetworkPlayground.js` fills the activations with `Math.random()`. It is not modelled.
- `setup`, the event wiring, and the debug and test-drawing helpers of `js/neuralNetworkPlayground_2.js` (lines 41-153) are not modelled.
- PlaygroundDrawing.DrawDecisionBoundary: the colour of a glyph is its fill state. `drawPlusSign` (`js/neuralNetworkPlayground.js` lines 320-326) draws two lines with a black stroke, so a plus sign shows black whatever its fill, and the predicted class of a label-1 point is not visible.
- Building the tensors from a non-empty dataset is not modelled: values that validateData accepts but that are not numbers (`null`, booleans, numeric strings) go to TensorFlow.js as they are.
- Floating point is modelled as real arithmetic: the divisions that normalize coordinates and lay out the network are exact here.
- Parsing strings to numbers is not modelled: a string value carries the number `Number(s)` would give.
- Playground2Network.MaxNodes: for an empty `layerVisuals`, JavaScript's `Math.max()` is -Infinity; the model uses 0. Nothing is drawn in that case.
- PlaygroundState.Playground.InitializeModel: `model.layers = []` is modelled as emptying the layer list, as the source comments intend. Whether TensorFlow.js lets that assignment clear a sequential model is library behaviour.
- PlaygroundState.Playground.TrainModel: the run is treated as atomic; no other handler runs while `await model.fit` is pending. `js/neuralNetworkPlayground.js` never disables its controls, so a `selectDataset` during training could clear the flag or replace the data between epochs, which the model does not capture. `js/neuralNetworkPlayground_2.js` disables its own buttons for the run (lines 405-408).
- `drawDecisionBoundary` and `updateDataVisualization` are `async`. The model treats each call as drawing immediately, in call order, so interleavings of unawaited calls are not modelled.
