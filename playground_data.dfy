/**
 * Datasets of neuralNetworkPlayground.js, the first revision of the
 * playground: the pixel-stepped linear and checkerboard generators, the
 * unused `generateGrid`, and the label sequences of the cluster, moon and
 * spiral generators.
 *
 * Points live in pixel coordinates of the 300 x 400 canvas (p5's `width`
 * and `height`). The coordinates of the cluster, moon and spiral points
 * come from `randomGaussian`, `random`, `cos` and `sin`; here they are an
 * input, the coordinate pair of the k-th point pushed.
 */
module PlaygroundData {
  import opened PixelGrids

  /** `createCanvas(300, 400)`: p5's `width` and `height`. */
  const CanvasWidth: int := 300
  const CanvasHeight: int := 400
  /** `resolution`: the pixel step of the linear generator and of generateGrid. */
  const Resolution: nat := 20

  /** A point object `{x, y, label}` (the `label` field). */
  datatype Point = Point(x: real, y: real, classLabel: int)

  /*
   * generateLinearData
   */

  /** The point generateLinearData pushes for pixel (x, y): label 0 left of the middle. */
  function LinearPoint(p: Pixel, w: int): Point
  {
    Point(p.0 as real, p.1 as real, if (p.0 as real) < (w as real) / 2.0 then 0 else 1)
  }

  /** The linear points for pixels `ps`, in order. */
  function LinearPoints(ps: seq<Pixel>, w: int): seq<Point>
  {
    seq(|ps|, k requires 0 <= k < |ps| => LinearPoint(ps[k], w))
  }

  lemma LinearPointsStep(ps: seq<Pixel>, p: Pixel, w: int)
    ensures LinearPoints(ps + [p], w) == LinearPoints(ps, w) + [LinearPoint(p, w)]
  {
  }

  /** The output of generateLinearData on a canvas of width w and height h. */
  function LinearData(w: int, h: int): seq<Point>
  {
    LinearPoints(PixelGrid(w, h, Resolution), w)
  }

  /**
   * generateLinearData: one point per `resolution`-step pixel of the
   * canvas, column by column, at the pixel's own coordinates.
   */
  method GenerateLinearData(width: int, height: int) returns (data: seq<Point>)
    ensures data == LinearData(width, height)
  {
    data := [];
    ghost var done: seq<Pixel> := [];
    ghost var all := PixelGrid(width, height, Resolution);
    var x := 0;
    while x < width
      invariant 0 <= x
      invariant done + GridFrom(x, width, height, Resolution) == all
      invariant data == LinearPoints(done, width)
    {
      ghost var later := GridFrom(x + Resolution, width, height, Resolution);
      var y := 0;
      while y < height
        invariant 0 <= y
        invariant done + ColumnFrom(x, y, height, Resolution) + later == all
        invariant data == LinearPoints(done, width)
      {
        NextPixel(done, x, y, height, Resolution, later);
        var classLabel := if (x as real) < (width as real) / 2.0 then 0 else 1;
        LinearPointsStep(done, (x, y), width);
        data := data + [Point(x as real, y as real, classLabel)];
        done := done + [(x, y)];
        y := y + Resolution;
      }
      LeaveColumn(done, x, y, height, Resolution, later);
      x := x + Resolution;
    }
    LeaveGrid(done, x, width, height, Resolution);
  }

  /**
   * The linear dataset has one point per step-20 column and row; point k
   * is the pixel (20 * (k / rows), 20 * (k % rows)) with rows = ceil(h / 20),
   * which lies in [0, w) x [0, h); its label is 0 or 1, and 0 exactly when
   * x is below w / 2.
   */
  lemma {:induction false} LinearDataFacts(w: int, h: int)
    ensures |LinearData(w, h)| == Steps(w, Resolution) * Steps(h, Resolution)
    ensures forall k :: 0 <= k < |LinearData(w, h)| ==>
      var p := LinearData(w, h)[k];
      var rows := Steps(h, Resolution);
      && rows > 0
      && p.x == ((k / rows) * Resolution) as real && p.y == ((k % rows) * Resolution) as real
      && 0.0 <= p.x < w as real && 0.0 <= p.y < h as real
      && p.classLabel in {0, 1}
      && (p.classLabel == 0 <==> p.x < (w as real) / 2.0)
  {
    GridLength(0, w, h, Resolution);
    GridBounds(0, w, h, Resolution);
    var d := LinearData(w, h);
    var g := PixelGrid(w, h, Resolution);
    forall k | 0 <= k < |d|
      ensures Steps(h, Resolution) > 0
      ensures d[k].x == ((k / Steps(h, Resolution)) * Resolution) as real
      ensures d[k].y == ((k % Steps(h, Resolution)) * Resolution) as real
      ensures 0.0 <= d[k].x < w as real && 0.0 <= d[k].y < h as real
    {
      assert d[k] == LinearPoint(g[k], w);
      PixelAt(w, h, Resolution, k);
    }
  }

  /** On the 300 x 400 canvas the generator emits 15 x 20 = 300 points. */
  lemma LinearDataCount()
    ensures |LinearData(CanvasWidth, CanvasHeight)| == 300
  {
    StepsIsCeiling(CanvasWidth, Resolution);
    StepsIsCeiling(CanvasHeight, Resolution);
    LinearCount(CanvasWidth, CanvasHeight);
  }

  lemma LinearCount(w: int, h: int)
    requires Steps(w, Resolution) == 15 && Steps(h, Resolution) == 20
    ensures |LinearData(w, h)| == 300
  {
    LinearDataFacts(w, h);
  }

  /*
   * generateGrid
   */

  /**
   * generateGrid: the `[x, y]` pixels of the canvas at `resolution` steps,
   * column by column. Nothing in the playground calls it.
   */
  method GenerateGrid(width: int, height: int) returns (points: seq<Pixel>)
    ensures points == PixelGrid(width, height, Resolution)
  {
    points := [];
    ghost var all := PixelGrid(width, height, Resolution);
    var x := 0;
    while x < width
      invariant 0 <= x
      invariant points + GridFrom(x, width, height, Resolution) == all
    {
      ghost var later := GridFrom(x + Resolution, width, height, Resolution);
      var y := 0;
      while y < height
        invariant 0 <= y
        invariant points + ColumnFrom(x, y, height, Resolution) + later == all
      {
        NextPixel(points, x, y, height, Resolution, later);
        points := points + [(x, y)];
        y := y + Resolution;
      }
      LeaveColumn(points, x, y, height, Resolution, later);
      x := x + Resolution;
    }
    LeaveGrid(points, x, width, height, Resolution);
  }

  /**
   * The grid has ceil(w / 20) * ceil(h / 20) pixels, all in [0, w) x [0, h),
   * visited in strictly increasing x-major order, so no pixel twice.
   */
  lemma GridFacts(w: int, h: int)
    requires w > 0 && h > 0
    ensures var g := PixelGrid(w, h, Resolution);
      && |g| == Steps(w, Resolution) * Steps(h, Resolution)
      && (Steps(w, Resolution) - 1) * Resolution < w <= Steps(w, Resolution) * Resolution
      && (Steps(h, Resolution) - 1) * Resolution < h <= Steps(h, Resolution) * Resolution
      && (forall k :: 0 <= k < |g| ==> 0 <= g[k].0 < w && 0 <= g[k].1 < h)
      && (forall k1, k2 :: 0 <= k1 < k2 < |g| ==> Before(g[k1], g[k2]))
  {
    GridLength(0, w, h, Resolution);
    GridBounds(0, w, h, Resolution);
    GridOrdered(0, w, h, Resolution);
    StepsIsCeiling(w, Resolution);
    StepsIsCeiling(h, Resolution);
  }

  /*
   * generateCheckerboard
   */

  /** `tileSize = width / 10`, exact for a width that is a multiple of 10. */
  function TileSize(w: int): nat
    requires w > 0 && w % 10 == 0
  {
    w / 10
  }

  /**
   * The point generateCheckerboard pushes for the tile whose corner is
   * pixel p: the tile's centre, labelled by the parity of its column index
   * plus its row index.
   */
  function CheckerPoint(p: Pixel, tile: nat): Point
    requires tile > 0
  {
    Point(p.0 as real + tile as real / 2.0, p.1 as real + tile as real / 2.0, (p.0 / tile + p.1 / tile) % 2)
  }

  /** The checkerboard points for tile corners `ps`, in order. */
  function CheckerPoints(ps: seq<Pixel>, tile: nat): seq<Point>
    requires tile > 0
  {
    seq(|ps|, k requires 0 <= k < |ps| => CheckerPoint(ps[k], tile))
  }

  lemma CheckerPointsStep(ps: seq<Pixel>, p: Pixel, tile: nat)
    requires tile > 0
    ensures CheckerPoints(ps + [p], tile) == CheckerPoints(ps, tile) + [CheckerPoint(p, tile)]
  {
  }

  /** The output of generateCheckerboard on a canvas of width w and height h. */
  function Checkerboard(w: int, h: int): seq<Point>
    requires w > 0 && w % 10 == 0
  {
    CheckerPoints(PixelGrid(w, h, TileSize(w)), TileSize(w))
  }

  /**
   * generateCheckerboard: step over the canvas by `width / 10` in both
   * directions and push each tile's centre with label
   * `(floor(x / tileSize) + floor(y / tileSize)) % 2`.
   */
  method GenerateCheckerboard(width: int, height: int) returns (data: seq<Point>)
    requires width > 0 && width % 10 == 0
    ensures data == Checkerboard(width, height)
  {
    data := [];
    var tileSize: nat := width / 10;
    ghost var done: seq<Pixel> := [];
    ghost var all := PixelGrid(width, height, tileSize);
    var x := 0;
    while x < width
      invariant 0 <= x
      invariant done + GridFrom(x, width, height, tileSize) == all
      invariant data == CheckerPoints(done, tileSize)
    {
      ghost var later := GridFrom(x + tileSize, width, height, tileSize);
      var y := 0;
      while y < height
        invariant 0 <= y
        invariant done + ColumnFrom(x, y, height, tileSize) + later == all
        invariant data == CheckerPoints(done, tileSize)
      {
        NextPixel(done, x, y, height, tileSize, later);
        var classLabel := (x / tileSize + y / tileSize) % 2;
        CheckerPointsStep(done, (x, y), tileSize);
        data := data + [Point(x as real + tileSize as real / 2.0, y as real + tileSize as real / 2.0, classLabel)];
        done := done + [(x, y)];
        y := y + tileSize;
      }
      LeaveColumn(done, x, y, height, tileSize, later);
      x := x + tileSize;
    }
    LeaveGrid(done, x, width, height, tileSize);
  }

  /** A loop stepping by s runs m times up to m * s. */
  lemma {:induction false} StepsOfMultiple(m: nat, s: nat)
    requires s > 0
    ensures Steps(m * s, s) == m
  {
    if m > 0 {
      assert m * s - s == (m - 1) * s;
      StepsOfMultiple(m - 1, s);
    }
  }

  lemma DivOfMultiple(i: nat, t: nat)
    requires t > 0
    ensures (i * t) / t == i
  {
    var q, r := (i * t) / t, (i * t) % t;
    assert i * t == q * t + r;
    if q < i {
      MulMonotone(i, q + 1, t);
      assert false;
    } else if q > i {
      MulMonotone(q, i + 1, t);
      assert false;
    }
  }

  /** The checkerboard has 10 columns of ceil(h / tile) tiles. */
  lemma CheckerboardCount(w: int, h: int)
    requires w > 0 && w % 10 == 0
    ensures |Checkerboard(w, h)| == 10 * Steps(h, TileSize(w))
  {
    var t := TileSize(w);
    assert w == 10 * t;
    StepsOfMultiple(10, t);
    GridLength(0, w, h, t);
  }

  /**
   * The point for tile (i, j), at index i * rows + j, is the centre of
   * that tile and is labelled (i + j) mod 2, so tiles that share an edge
   * have different labels.
   */
  lemma CheckerboardTile(w: int, h: int, i: nat, j: nat)
    requires w > 0 && w % 10 == 0
    requires i < 10 && j < Steps(h, TileSize(w))
    ensures var t, rows := TileSize(w), Steps(h, TileSize(w));
      && i * rows + j < |Checkerboard(w, h)|
      && Checkerboard(w, h)[i * rows + j] ==
           Point((i * t) as real + t as real / 2.0, (j * t) as real + t as real / 2.0, (i + j) % 2)
  {
    var t := TileSize(w);
    assert w == 10 * t;
    StepsOfMultiple(10, t);
    GridAt(0, w, h, t, i, j);
    var k := i * Steps(h, t) + j;
    assert Checkerboard(w, h)[k] == CheckerPoint(PixelGrid(w, h, t)[k], t);
    TileCentre(i, j, t);
  }

  /** The point for the tile whose corner is (i * t, j * t). */
  lemma TileCentre(i: nat, j: nat, t: nat)
    requires t > 0
    ensures CheckerPoint((i * t, j * t), t) ==
      Point((i * t) as real + t as real / 2.0, (j * t) as real + t as real / 2.0, (i + j) % 2)
  {
    DivOfMultiple(i, t);
    DivOfMultiple(j, t);
  }

  /**
   * Every checkerboard point lies strictly inside the canvas horizontally,
   * and vertically below the top and less than half a tile below the
   * bottom edge.
   */
  lemma CheckerboardInside(w: int, h: int, k: int)
    requires w > 0 && w % 10 == 0
    requires 0 <= k < |Checkerboard(w, h)|
    ensures 0.0 < Checkerboard(w, h)[k].x < w as real
    ensures 0.0 < Checkerboard(w, h)[k].y < h as real + TileSize(w) as real / 2.0
  {
    var t := TileSize(w);
    var g := PixelGrid(w, h, t);
    GridBounds(0, w, h, t);
    PixelAt(w, h, t, k);
    var i := k / Steps(h, t);
    assert g[k].0 == i * t;
    if i >= 10 {
      MulMonotone(i, 10, t);
      assert false;
    }
    MulMonotone(9, i, t);
    assert Checkerboard(w, h)[k] == CheckerPoint(g[k], t);
  }

  /**
   * On a canvas 300 pixels wide the tiles are 30 pixels wide; at any
   * height above 390 and up to 400, the source's 400 included, there are
   * 10 columns of 14 tiles, 140 points. Such a height is not a multiple of
   * 30, so the last row's centres lie at y = 405, below the canvas; the
   * last point is the centre of tile (9, 13), labelled 0.
   */
  lemma CheckerboardOnCanvas(w: int, h: int)
    requires w > 0 && w % 10 == 0 && TileSize(w) == 30
    requires 390 < h <= 400
    ensures |Checkerboard(w, h)| == 140
    ensures Checkerboard(w, h)[139] == Point(285.0, 405.0, 0)
    ensures Checkerboard(w, h)[139].y > h as real
  {
    StepsIsCeiling(h, 30);
    CheckerboardCount(w, h);
    CheckerboardTile(w, h, 9, 13);
  }

  /*
   * generateTwoClusters, generateMoons and generateSpiral
   */

  /** The coordinate pair of the k-th point a generator pushes. */
  type Coordinates = nat -> (real, real)

  /** How the label of the i-th point of a run is chosen: a constant, or `(i + offset) % 2`. */
  datatype LabelRule = Fixed(classLabel: int) | Alternate(offset: nat)

  function LabelAt(rule: LabelRule, i: nat): int
  {
    match rule
    case Fixed(l) => l
    case Alternate(o) => (i + o) % 2
  }

  /** One generator loop: n points, the i-th at coordinates `coord(start + i)`, labelled by `rule`. */
  function Run(coord: Coordinates, start: nat, n: nat, rule: LabelRule): seq<Point>
  {
    seq(n, i requires 0 <= i => Point(coord(start + i).0, coord(start + i).1, LabelAt(rule, i)))
  }

  lemma RunStep(coord: Coordinates, start: nat, n: nat, rule: LabelRule)
    ensures Run(coord, start, n + 1, rule) ==
      Run(coord, start, n, rule) + [Point(coord(start + n).0, coord(start + n).1, LabelAt(rule, n))]
  {
  }

  /** `pointsPerCluster` and `pointsPerMoon`. */
  const PointsPerGroup: nat := 100

  /** Two loops of n points each: label 0, then label 1. */
  function TwoGroups(coord: Coordinates, n: nat): seq<Point>
  {
    Run(coord, 0, n, Fixed(0)) + Run(coord, n, n, Fixed(1))
  }

  /**
   * generateTwoClusters and generateMoons, which differ only in how the
   * coordinates are drawn: push `perGroup` points labelled 0, then
   * `perGroup` points labelled 1.
   */
  method GenerateTwoGroups(coord: Coordinates, perGroup: nat) returns (data: seq<Point>)
    ensures data == TwoGroups(coord, perGroup)
  {
    data := [];
    var i := 0;
    while i < perGroup
      invariant 0 <= i <= perGroup
      invariant data == Run(coord, 0, i, Fixed(0))
    {
      RunStep(coord, 0, i, Fixed(0));
      var c := coord(i);
      data := data + [Point(c.0, c.1, 0)];
      i := i + 1;
    }
    ghost var first := data;
    i := 0;
    while i < perGroup
      invariant 0 <= i <= perGroup
      invariant data == first + Run(coord, perGroup, i, Fixed(1))
    {
      RunStep(coord, perGroup, i, Fixed(1));
      var c := coord(perGroup + i);
      data := data + [Point(c.0, c.1, 1)];
      i := i + 1;
    }
  }

  /**
   * A two-group dataset has exactly n label-0 points followed by exactly n
   * label-1 points, at the coordinates drawn in order.
   */
  lemma {:induction false} TwoGroupsLabels(coord: Coordinates, n: nat)
    ensures |TwoGroups(coord, n)| == 2 * n
    ensures forall k :: 0 <= k < 2 * n ==>
      && TwoGroups(coord, n)[k] == Point(coord(k).0, coord(k).1, TwoGroups(coord, n)[k].classLabel)
      && (TwoGroups(coord, n)[k].classLabel == 0 <==> k < n)
      && (TwoGroups(coord, n)[k].classLabel == 1 <==> k >= n)
  {
    var a, b := Run(coord, 0, n, Fixed(0)), Run(coord, n, n, Fixed(1));
    var d := TwoGroups(coord, n);
    forall k | 0 <= k < 2 * n
      ensures d[k] == Point(coord(k).0, coord(k).1, if k < n then 0 else 1)
    {
      if k < n {
        assert d[k] == a[k];
      } else {
        assert d[k] == b[k - n];
      }
    }
  }

  /** `turns` and `pointsPerTurn`: each arm has turns * pointsPerTurn points. */
  const Turns: nat := 2
  const PointsPerTurn: nat := 100

  /** Two arms: the first labelled `i % 2`, the second `(i + 1) % 2`. */
  function Spiral(coord: Coordinates): seq<Point>
  {
    Run(coord, 0, Turns * PointsPerTurn, Alternate(0)) + Run(coord, Turns * PointsPerTurn, Turns * PointsPerTurn, Alternate(1))
  }

  /** generateSpiral: two loops of turns * pointsPerTurn points, one per arm. */
  method GenerateSpiral(coord: Coordinates) returns (data: seq<Point>)
    ensures data == Spiral(coord)
  {
    var arm := Turns * PointsPerTurn;
    data := [];
    var i := 0;
    while i < arm
      invariant 0 <= i <= arm
      invariant data == Run(coord, 0, i, Alternate(0))
    {
      RunStep(coord, 0, i, Alternate(0));
      var c := coord(i);
      data := data + [Point(c.0, c.1, i % 2)];
      i := i + 1;
    }
    ghost var first := data;
    i := 0;
    while i < arm
      invariant 0 <= i <= arm
      invariant data == first + Run(coord, arm, i, Alternate(1))
    {
      RunStep(coord, arm, i, Alternate(1));
      var c := coord(arm + i);
      data := data + [Point(c.0, c.1, (i + 1) % 2)];
      i := i + 1;
    }
  }

  /**
   * The spiral has 400 points; along each arm the labels alternate, the
   * first arm starting with 0, and point i of the second arm has the
   * label opposite to point i of the first.
   */
  lemma {:induction false} SpiralLabels(coord: Coordinates)
    ensures |Spiral(coord)| == 400
    ensures forall i :: 0 <= i < 200 ==>
      && Spiral(coord)[i].classLabel == i % 2
      && Spiral(coord)[200 + i].classLabel == 1 - Spiral(coord)[i].classLabel
    ensures forall k :: 0 <= k < 400 ==> Spiral(coord)[k].x == coord(k).0 && Spiral(coord)[k].y == coord(k).1
  {
    var a, b := Run(coord, 0, 200, Alternate(0)), Run(coord, 200, 200, Alternate(1));
    var d := Spiral(coord);
    assert d == a + b;
    forall i | 0 <= i < 200
      ensures d[i].classLabel == i % 2 && d[200 + i].classLabel == 1 - d[i].classLabel
    {
      assert d[i] == a[i] && d[200 + i] == b[i];
    }
    forall k | 0 <= k < 400
      ensures d[k].x == coord(k).0 && d[k].y == coord(k).1
    {
      if k < 200 {
        assert d[k] == a[k];
      } else {
        assert d[k] == b[k - 200];
      }
    }
  }
}
