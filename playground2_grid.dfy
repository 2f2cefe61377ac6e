/**
 * The decision boundary of neuralNetworkPlayground_2.js: the grid of
 * normalized inputs built by `generateDecisionGrid`, and the drawing loop of
 * `drawDecisionBoundary`, which walks the same nested loops and consumes the
 * model's predictions with a running index.
 *
 * Both loops step by `resolution / 2` pixels over the data area; the
 * predictions are the model's outputs for the grid, an input here.
 */
module Playground2Grid {
  import opened JsValues
  import opened PixelGrids
  import Playground2Data

  /** `resolution / 2` with resolution 20: the grid step, in pixels. */
  const GridResolution: nat := 10

  /** `resolution / 4` with resolution 20: each shaded square is drawn this far past its grid pixel. */
  const CellOffset: int := 5

  /** The square drawn for grid pixel `p` in class `c`. */
  function ShadedCell(p: Pixel, c: int): Cell
  {
    Cell(CellOffset + p.0, CellOffset + p.1, c)
  }

  /** The squares drawn for pixels `ps`, the k-th with prediction k. */
  function Shade(ps: seq<Pixel>, predictions: seq<JsNumber>): seq<Cell>
  {
    seq(|ps|, k requires 0 <= k < |ps| => ShadedCell(ps[k], PredictedClass(predictions, k)))
  }

  lemma ShadeStep(ps: seq<Pixel>, p: Pixel, predictions: seq<JsNumber>)
    ensures Shade(ps + [p], predictions) == Shade(ps, predictions) + [ShadedCell(p, PredictedClass(predictions, |ps|))]
  {
  }

  /** A normalized grid input `[x, y]`. */
  type GridPoint = (real, real)

  /** A shaded square of the boundary overlay: its corner in pixels and the class it shows. */
  datatype Cell = Cell(x: int, y: int, predictedClass: int)

  /** The grid pushed for pixel (i, j): `[i / dataAreaWidth, j / canvasHeight]`. */
  function Normalize(p: Pixel, w: int, h: int): GridPoint
    requires 0 <= p.0 < w && 0 <= p.1 < h
  {
    (p.0 as real / w as real, p.1 as real / h as real)
  }

  /** The normalized inputs for pixels `ps`, in order. */
  function NormalizeAll(ps: seq<Pixel>, w: int, h: int): seq<GridPoint>
    requires InArea(ps, w, h)
  {
    seq(|ps|, k requires 0 <= k < |ps| => Normalize(ps[k], w, h))
  }

  lemma NormalizeAllStep(ps: seq<Pixel>, p: Pixel, w: int, h: int)
    requires InArea(ps, w, h) && 0 <= p.0 < w && 0 <= p.1 < h
    ensures InArea(ps + [p], w, h)
    ensures NormalizeAll(ps + [p], w, h) == NormalizeAll(ps, w, h) + [Normalize(p, w, h)]
  {
  }

  /** The content of `decisionBoundaryGrid` after generateDecisionGrid, as a value. */
  function DecisionGrid(w: int, h: int): seq<GridPoint>
  {
    GridBounds(0, w, h, GridResolution);
    NormalizeAll(PixelGrid(w, h, GridResolution), w, h)
  }

  /**
   * generateDecisionGrid: clear the grid, then push `[i / W, j / H]` for
   * every `resolution / 2`-step pixel (i, j) of the data area, column by
   * column. W and H are the globals `dataAreaWidth` and `canvasHeight`.
   */
  method GenerateDecisionGrid(dataAreaWidth: int, canvasHeight: int) returns (grid: seq<GridPoint>)
    ensures grid == DecisionGrid(dataAreaWidth, canvasHeight)
  {
    grid := [];
    ghost var done: seq<Pixel> := [];
    ghost var all := PixelGrid(dataAreaWidth, canvasHeight, GridResolution);
    var i := 0;
    while i < dataAreaWidth
      invariant 0 <= i
      invariant done + GridFrom(i, dataAreaWidth, canvasHeight, GridResolution) == all
      invariant InArea(done, dataAreaWidth, canvasHeight)
      invariant grid == NormalizeAll(done, dataAreaWidth, canvasHeight)
    {
      ghost var later := GridFrom(i + GridResolution, dataAreaWidth, canvasHeight, GridResolution);
      var j := 0;
      while j < canvasHeight
        invariant 0 <= j
        invariant done + ColumnFrom(i, j, canvasHeight, GridResolution) + later == all
        invariant InArea(done, dataAreaWidth, canvasHeight)
        invariant grid == NormalizeAll(done, dataAreaWidth, canvasHeight)
      {
        NextPixel(done, i, j, canvasHeight, GridResolution, later);
        NormalizeAllStep(done, (i, j), dataAreaWidth, canvasHeight);
        var normX := i as real / dataAreaWidth as real;
        var normY := j as real / canvasHeight as real;
        grid := grid + [(normX, normY)];
        done := done + [(i, j)];
        j := j + GridResolution;
      }
      LeaveColumn(done, i, j, canvasHeight, GridResolution, later);
      i := i + GridResolution;
    }
    LeaveGrid(done, i, dataAreaWidth, canvasHeight, GridResolution);
  }

  /** `predictions[k] > 0.5 ? 1 : 0`; a NaN prediction or one past the end is class 0. */
  function PredictedClass(predictions: seq<JsNumber>, k: int): int
  {
    if GreaterThan(At(predictions, k), 0.5) then 1 else 0
  }

  /**
   * The grid has ceil(w / g) * ceil(h / g) inputs, all in [0, 1) x [0, 1),
   * and input k is pixel (g * (k / rows), g * (k % rows)) normalized, where
   * rows = ceil(h / g): the outer loop runs over x, the inner over y.
   */
  lemma {:induction false} DecisionGridFacts(w: int, h: int)
    ensures |DecisionGrid(w, h)| == Steps(w, GridResolution) * Steps(h, GridResolution)
    ensures forall k :: 0 <= k < |DecisionGrid(w, h)| ==>
      0.0 <= DecisionGrid(w, h)[k].0 < 1.0 && 0.0 <= DecisionGrid(w, h)[k].1 < 1.0
    ensures forall k :: 0 <= k < |DecisionGrid(w, h)| ==>
      var rows := Steps(h, GridResolution);
      rows > 0 &&
      DecisionGrid(w, h)[k] ==
        ((((k / rows) * GridResolution) as real) / w as real,
         (((k % rows) * GridResolution) as real) / h as real)
  {
    GridLength(0, w, h, GridResolution);
    GridBounds(0, w, h, GridResolution);
    var g := PixelGrid(w, h, GridResolution);
    var d := DecisionGrid(w, h);
    forall k | 0 <= k < |d|
      ensures 0.0 <= d[k].0 < 1.0 && 0.0 <= d[k].1 < 1.0
      ensures Steps(h, GridResolution) > 0
      ensures d[k] ==
        ((((k / Steps(h, GridResolution)) * GridResolution) as real) / w as real,
         (((k % Steps(h, GridResolution)) * GridResolution) as real) / h as real)
    {
      assert d[k] == Normalize(g[k], w, h);
      Playground2Data.RatioBelow(g[k].0, w);
      Playground2Data.RatioBelow(g[k].1, h);
      PixelAt(w, h, GridResolution, k);
    }
  }

  /** At the source's 300 x 300 data area the grid has 30 x 30 = 900 inputs. */
  lemma DecisionGridCount()
    ensures |DecisionGrid(300, 300)| == 900
  {
    StepsIsCeiling(300, GridResolution);
    DecisionGridCountOf(300, 300);
  }

  lemma DecisionGridCountOf(w: int, h: int)
    requires Steps(w, GridResolution) == 30 && Steps(h, GridResolution) == 30
    ensures |DecisionGrid(w, h)| == 900
  {
    DecisionGridFacts(w, h);
  }

  /** The threshold: class 1 exactly when the prediction is above 0.5, so 0.5 itself is class 0. */
  lemma PredictedClassThreshold(predictions: seq<JsNumber>, k: int)
    ensures PredictedClass(predictions, k) == 1 <==>
      0 <= k < |predictions| && (predictions[k] == PosInfinity ||
        (predictions[k].Finite? && predictions[k].value > 0.5))
    ensures PredictedClass(predictions, k) in {0, 1}
    ensures PredictedClass([Finite(0.5)], 0) == 0
  {
  }

  /** The squares drawDecisionBoundary shades for a data area of width w and height h. */
  function BoundaryCells(predictions: seq<JsNumber>, w: int, h: int): seq<Cell>
  {
    Shade(PixelGrid(w, h, GridResolution), predictions)
  }

  /**
   * drawDecisionBoundary, after the predictions are in: walk the grid loops
   * again, read `predictions[index++]` for each cell and shade the square at
   * (resolution/4 + i, resolution/4 + j) with the predicted class. Returns
   * the squares in drawing order and the final index.
   */
  method DrawDecisionBoundary(predictions: seq<JsNumber>, dataAreaWidth: int, canvasHeight: int)
    returns (cells: seq<Cell>, index: nat)
    ensures cells == BoundaryCells(predictions, dataAreaWidth, canvasHeight)
    ensures index == |cells| == |PixelGrid(dataAreaWidth, canvasHeight, GridResolution)|
    ensures forall k :: 0 <= k < |cells| ==>
      var p := PixelGrid(dataAreaWidth, canvasHeight, GridResolution)[k];
      cells[k] == Cell(CellOffset + p.0, CellOffset + p.1, PredictedClass(predictions, k))
  {
    cells := [];
    index := 0;
    ghost var done: seq<Pixel> := [];
    ghost var all := PixelGrid(dataAreaWidth, canvasHeight, GridResolution);
    var i := 0;
    while i < dataAreaWidth
      invariant 0 <= i
      invariant done + GridFrom(i, dataAreaWidth, canvasHeight, GridResolution) == all
      invariant index == |cells| == |done|
      invariant cells == Shade(done, predictions)
    {
      ghost var later := GridFrom(i + GridResolution, dataAreaWidth, canvasHeight, GridResolution);
      var j := 0;
      while j < canvasHeight
        invariant 0 <= j
        invariant done + ColumnFrom(i, j, canvasHeight, GridResolution) + later == all
        invariant index == |cells| == |done|
        invariant cells == Shade(done, predictions)
      {
        NextPixel(done, i, j, canvasHeight, GridResolution, later);
        var predictedClass := PredictedClass(predictions, index);
        index := index + 1;
        ShadeStep(done, (i, j), predictions);
        cells := cells + [ShadedCell((i, j), predictedClass)];
        done := done + [(i, j)];
        j := j + GridResolution;
      }
      LeaveColumn(done, i, j, canvasHeight, GridResolution, later);
      i := i + GridResolution;
    }
    LeaveGrid(done, i, dataAreaWidth, canvasHeight, GridResolution);
  }

  /**
   * Cell k of the drawing and input k of the grid are the same pixel: the
   * square drawn with prediction k has its corner resolution/4 pixels past
   * the pixel whose normalized coordinates are grid input k.
   */
  lemma CellMatchesGridInput(w: int, h: int, k: int)
    requires 0 <= k < |PixelGrid(w, h, GridResolution)|
    ensures k < |DecisionGrid(w, h)|
    ensures var p := PixelGrid(w, h, GridResolution)[k];
      0 <= p.0 < w && 0 <= p.1 < h &&
      DecisionGrid(w, h)[k] == (p.0 as real / w as real, p.1 as real / h as real)
  {
    GridBounds(0, w, h, GridResolution);
  }
}
