/**
 * Datasets of neuralNetworkPlayground_2.js: the labeled points, the two
 * validation checks, the linear generator and the selector `generateData`.
 *
 * Points live in normalized coordinates: the generators divide pixel
 * positions by the 300 x 300 data area. Each field of a point is a
 * JavaScript value, because the two validation checks differ precisely in
 * how they treat values that are not plain finite numbers.
 */
module Playground2Data {
  import opened JsValues
  import opened PixelGrids

  /** The data area is the left half of the 600 x 300 canvas. */
  const CanvasWidth: int := 600
  const CanvasHeight: int := 300
  const DataAreaWidth: int := CanvasWidth / 2
  /** Pixel step of the dataset generators (`resolution`). */
  const Resolution: nat := 20

  /** A point object `{x, y, label}`. */
  datatype Point = Point(x: JsValue, y: JsValue, classLabel: JsValue)

  /** The argument of `validateDataShapeAndType`: an array of points, or anything else. */
  datatype DataArg = ArrayOf(points: seq<Point>) | NotAnArray

  /** The per-point test inside `validateData`. */
  predicate PointValid(p: Point)
  {
    && !IsNaN(p.x) && IsFinite(p.x)
    && !IsNaN(p.y) && IsFinite(p.y)
    && (StrictEqualsNumber(p.classLabel, 0.0) || StrictEqualsNumber(p.classLabel, 1.0))
  }

  /** `validateData(data)`: `data.every(PointValid)`. */
  predicate ValidateData(data: seq<Point>)
  {
    forall i :: 0 <= i < |data| ==> PointValid(data[i])
  }

  /** The per-point test inside `validateDataShapeAndType`: all three fields are numbers. */
  predicate HasNumberFields(p: Point)
  {
    TypeOf(p.x) == "number" && TypeOf(p.y) == "number" && TypeOf(p.classLabel) == "number"
  }

  /** What `validateDataShapeAndType` accepts: a non-empty array of points with number fields. */
  predicate ShapeAndTypeOk(d: DataArg)
  {
    && d.ArrayOf?
    && |d.points| > 0
    && forall i :: 0 <= i < |d.points| ==> HasNumberFields(d.points[i])
  }

  /**
   * validateDataShapeAndType: reject a non-array, then an empty array, then
   * scan the points and return false at the first one with a non-number field.
   */
  method ValidateDataShapeAndType(d: DataArg) returns (ok: bool)
    ensures ok <==> ShapeAndTypeOk(d)
  {
    if !d.ArrayOf? {
      return false;
    }
    if |d.points| == 0 {
      return false;
    }
    var i := 0;
    while i < |d.points|
      invariant 0 <= i <= |d.points|
      invariant forall k :: 0 <= k < i ==> HasNumberFields(d.points[k])
    {
      var point := d.points[i];
      if TypeOf(point.x) != "number" || TypeOf(point.y) != "number" || TypeOf(point.classLabel) != "number" {
        return false;
      }
      i := i + 1;
    }
    return true;
  }

  /**
   * validateData accepts exactly the datasets whose every point has x and y
   * that convert to finite numbers and a label that is the number 0 or 1;
   * on points whose fields are numbers this means x and y are finite and
   * the label is 0 or 1.
   */
  lemma ValidateDataMeaning(data: seq<Point>)
    ensures ValidateData(data) <==>
      forall i :: 0 <= i < |data| ==>
        && ToNumber(data[i].x).Finite? && ToNumber(data[i].y).Finite?
        && data[i].classLabel in {Num(Finite(0.0)), Num(Finite(1.0))}
    ensures (forall i :: 0 <= i < |data| ==> HasNumberFields(data[i])) ==>
      (ValidateData(data) <==>
        forall i :: 0 <= i < |data| ==>
          data[i].x.n.Finite? && data[i].y.n.Finite? &&
          data[i].classLabel.n in {Finite(0.0), Finite(1.0)})
  {
  }

  /** An empty dataset passes validateData but not validateDataShapeAndType. */
  lemma EmptyDataset()
    ensures ValidateData([])
    ensures !ShapeAndTypeOk(ArrayOf([]))
  {
  }

  /**
   * The two checks are incomparable: a NaN coordinate passes the type check
   * but not validateData; a numeric string coordinate, a `null` or a boolean
   * passes validateData (they coerce to finite numbers) but not the type check.
   */
  lemma ChecksDiffer(r: real)
    ensures var p := Point(Num(NaN), Num(Finite(r)), Num(Finite(0.0)));
      ShapeAndTypeOk(ArrayOf([p])) && !ValidateData([p])
    ensures var p := Point(Str("0.5", Finite(0.5)), Null, Num(Finite(1.0)));
      ValidateData([p]) && !ShapeAndTypeOk(ArrayOf([p]))
    ensures var p := Point(Bool(true), Num(Finite(r)), Num(Finite(1.0)));
      ValidateData([p]) && !ShapeAndTypeOk(ArrayOf([p]))
  {
    var n := Point(Num(NaN), Num(Finite(r)), Num(Finite(0.0)));
    assert !PointValid([n][0]);
    var p := Point(Bool(true), Num(Finite(r)), Num(Finite(1.0)));
    assert !HasNumberFields(ArrayOf([p]).points[0]);
    var q := Point(Str("0.5", Finite(0.5)), Null, Num(Finite(1.0)));
    assert !HasNumberFields(ArrayOf([q]).points[0]);
  }

  /**
   * On a dataset that passes validateData every label is the number 0 or 1,
   * so validateDataShapeAndType rejects it only when it is empty or when a
   * coordinate is a value validateData coerced rather than a number.
   */
  lemma TypeCheckOnValidData(data: seq<Point>)
    requires ValidateData(data)
    ensures ShapeAndTypeOk(ArrayOf(data)) <==>
      |data| > 0 && forall i :: 0 <= i < |data| ==> data[i].x.Num? && data[i].y.Num?
  {
    assert forall i :: 0 <= i < |data| ==> PointValid(data[i]);
  }

  /**
   * The point generateLinearData pushes for pixel (x, y) of a data area of
   * width w and height h: normalized coordinates, label 0 left of the middle.
   */
  function LinearPoint(p: Pixel, w: int, h: int): Point
    requires 0 <= p.0 < w && 0 <= p.1 < h
  {
    var classLabel := if (p.0 as real) < (w as real) / 2.0 then 0.0 else 1.0;
    Point(Num(Finite(p.0 as real / w as real)), Num(Finite(p.1 as real / h as real)), Num(Finite(classLabel)))
  }

  /** The linear points for pixels `ps`, in order. */
  function LinearPoints(ps: seq<Pixel>, w: int, h: int): seq<Point>
    requires InArea(ps, w, h)
  {
    seq(|ps|, k requires 0 <= k < |ps| => LinearPoint(ps[k], w, h))
  }

  lemma LinearPointsStep(ps: seq<Pixel>, p: Pixel, w: int, h: int)
    requires InArea(ps, w, h) && 0 <= p.0 < w && 0 <= p.1 < h
    ensures InArea(ps + [p], w, h)
    ensures LinearPoints(ps + [p], w, h) == LinearPoints(ps, w, h) + [LinearPoint(p, w, h)]
  {
  }

  /** The output of generateLinearData for a data area of width w and height h. */
  function LinearData(w: int, h: int): seq<Point>
  {
    GridBounds(0, w, h, Resolution);
    LinearPoints(PixelGrid(w, h, Resolution), w, h)
  }

  /**
   * generateLinearData: one point per `resolution`-step pixel of the data
   * area, column by column, at normalized coordinates. The data area's size
   * is read from the globals `dataAreaWidth` and `canvasHeight`, passed in.
   */
  method GenerateLinearData(dataAreaWidth: int, canvasHeight: int) returns (data: seq<Point>)
    ensures data == LinearData(dataAreaWidth, canvasHeight)
  {
    data := [];
    ghost var done: seq<Pixel> := [];
    ghost var all := PixelGrid(dataAreaWidth, canvasHeight, Resolution);
    var x := 0;
    while x < dataAreaWidth
      invariant 0 <= x
      invariant done + GridFrom(x, dataAreaWidth, canvasHeight, Resolution) == all
      invariant InArea(done, dataAreaWidth, canvasHeight)
      invariant data == LinearPoints(done, dataAreaWidth, canvasHeight)
    {
      ghost var later := GridFrom(x + Resolution, dataAreaWidth, canvasHeight, Resolution);
      var y := 0;
      while y < canvasHeight
        invariant 0 <= y
        invariant done + ColumnFrom(x, y, canvasHeight, Resolution) + later == all
        invariant InArea(done, dataAreaWidth, canvasHeight)
        invariant data == LinearPoints(done, dataAreaWidth, canvasHeight)
      {
        NextPixel(done, x, y, canvasHeight, Resolution, later);
        var classLabel := if (x as real) < (dataAreaWidth as real) / 2.0 then 0.0 else 1.0;
        LinearPointsStep(done, (x, y), dataAreaWidth, canvasHeight);
        data := data + [Point(Num(Finite(x as real / dataAreaWidth as real)),
                              Num(Finite(y as real / canvasHeight as real)),
                              Num(Finite(classLabel)))];
        done := done + [(x, y)];
        y := y + Resolution;
      }
      LeaveColumn(done, x, y, canvasHeight, Resolution, later);
      x := x + Resolution;
    }
    LeaveGrid(done, x, dataAreaWidth, canvasHeight, Resolution);
  }

  /**
   * Every linear point is valid, lies in [0, 1) x [0, 1), and has label 0
   * exactly when its normalized x is below one half; there is one point
   * per step-20 column and row of the data area.
   */
  lemma {:induction false} LinearDataFacts(w: int, h: int)
    ensures |LinearData(w, h)| == Steps(w, Resolution) * Steps(h, Resolution)
    ensures |LinearData(w, h)| == |PixelGrid(w, h, Resolution)|
    ensures InArea(PixelGrid(w, h, Resolution), w, h)
    ensures forall k :: 0 <= k < |LinearData(w, h)| ==>
      LinearData(w, h)[k] == LinearPoint(PixelGrid(w, h, Resolution)[k], w, h)
    ensures ValidateData(LinearData(w, h))
    ensures forall k :: 0 <= k < |LinearData(w, h)| ==>
      var p := LinearData(w, h)[k];
      && 0.0 <= p.x.n.value < 1.0 && 0.0 <= p.y.n.value < 1.0
      && (p.classLabel == Num(Finite(0.0)) <==> p.x.n.value < 0.5)
  {
    GridLength(0, w, h, Resolution);
    GridBounds(0, w, h, Resolution);
    var d := LinearData(w, h);
    var g := PixelGrid(w, h, Resolution);
    forall k | 0 <= k < |d|
      ensures PointValid(d[k])
      ensures 0.0 <= d[k].x.n.value < 1.0 && 0.0 <= d[k].y.n.value < 1.0
      ensures d[k].classLabel == Num(Finite(0.0)) <==> d[k].x.n.value < 0.5
    {
      assert d[k] == LinearPoint(g[k], w, h);
      RatioBelow(g[k].0, w);
      RatioBelow(g[k].1, h);
      HalfRatio(g[k].0, w);
    }
  }

  lemma RatioBelow(a: int, b: int)
    requires 0 <= a < b
    ensures 0.0 <= a as real / b as real < 1.0
  {
  }

  lemma HalfRatio(a: int, b: int)
    requires 0 <= a < b
    ensures (a as real) < (b as real) / 2.0 <==> a as real / b as real < 0.5
  {
    var x, r := a as real, b as real;
    var q := x / r;
    assert q * r == x;
    if q < 0.5 {
      MulPositiveReal(0.5 - q, r);
      assert (0.5 - q) * r == 0.5 * r - q * r;
      assert x < r / 2.0;
    } else {
      MulNonNegative(q - 0.5, r);
      assert (q - 0.5) * r == q * r - 0.5 * r;
      assert x >= r / 2.0;
    }
  }

  lemma MulPositiveReal(d: real, r: real)
    requires d > 0.0 && r > 0.0
    ensures d * r > 0.0
  {
  }

  lemma MulNonNegative(d: real, r: real)
    requires d >= 0.0 && r > 0.0
    ensures d * r >= 0.0
  {
    if d > 0.0 {
      assert d * r > 0.0;
    }
  }

  /** At the source's 300 x 300 data area the generator emits 15 x 15 = 225 points. */
  lemma LinearDataCount()
    ensures |LinearData(300, 300)| == 225
  {
    StepsIsCeiling(300, Resolution);
    LinearCount(300, 300);
  }

  lemma LinearCount(w: int, h: int)
    requires Steps(w, Resolution) == 15 && Steps(h, Resolution) == 15
    ensures |LinearData(w, h)| == 225
  {
    LinearDataFacts(w, h);
  }

  /**
   * What the generators other than the linear one return; their coordinates
   * come from trigonometry, randomness or a floating-point loop, none of
   * which is part of this model.
   */
  datatype Generated = Generated(
    concentric: seq<Point>, twoClusters: seq<Point>, checkerboard: seq<Point>,
    moons: seq<Point>, spiral: seq<Point>)

  /**
   * generateData(selection): the generator the selection names, or an empty
   * array for an unknown selection, copied point by point as `{x, y, label}`
   * (the copy of a point with exactly these fields is the same point).
   */
  function GenerateData(selection: string, gen: Generated, dataAreaWidth: int, canvasHeight: int): seq<Point>
  {
    match selection
    case "linear" => LinearData(dataAreaWidth, canvasHeight)
    case "concentric" => gen.concentric
    case "twoClusters" => gen.twoClusters
    case "checkerboard" => gen.checkerboard
    case "moons" => gen.moons
    case "spiral" => gen.spiral
    case _ => []
  }

  /** The selections generateData recognises. */
  predicate KnownSelection(selection: string)
  {
    selection in {"linear", "concentric", "twoClusters", "checkerboard", "moons", "spiral"}
  }

  /**
   * An unknown selection yields the empty dataset, which validateData
   * accepts; the linear selection always yields a valid dataset.
   */
  lemma GenerateDataOutcomes(selection: string, gen: Generated, w: int, h: int)
    ensures !KnownSelection(selection) ==>
      GenerateData(selection, gen, w, h) == [] && ValidateData(GenerateData(selection, gen, w, h))
    ensures selection == "linear" ==> ValidateData(GenerateData(selection, gen, w, h))
    ensures selection == "linear" && w > 0 && h > 0 ==> |GenerateData(selection, gen, w, h)| > 0
  {
    if selection == "linear" {
      LinearDataFacts(w, h);
      if w > 0 && h > 0 {
        MulPositive(Steps(w, Resolution), Steps(h, Resolution));
      }
    }
  }

  lemma MulPositive(a: nat, b: nat)
    requires a > 0 && b > 0
    ensures a * b > 0
  {
  }
}
