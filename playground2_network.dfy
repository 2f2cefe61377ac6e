/**
 * The network half of neuralNetworkPlayground_2.js: the per-layer
 * visualisation records built by `prepareVisualizationData`, and the layout
 * and edge enumeration of `drawNetwork`.
 *
 * The network occupies the right half of the 600 x 300 canvas. Layer i is
 * drawn as column i, its nodes one above the other; every node of layer
 * i - 1 is joined to every node of layer i by a line whose colour is the
 * sign of the connecting weight. The weights are read from the model, an
 * input here.
 */
module Playground2Network {
  import opened JsValues
  import opened ModelLayers

  /** `canvasHeight`: the network half is as high as the canvas. */
  const NetworkAreaHeight: real := 300.0
  /** `networkAreaStartX = canvasWidth / 2`, with canvasWidth 600. */
  const NetworkAreaStartX: real := 300.0
  /** `networkAreaWidth = canvasWidth / 2`. */
  const NetworkAreaWidth: real := 300.0

  /**
   * `Math.max(...layerVisuals.map(l => l.nodes))`. For no layers JavaScript
   * gives -Infinity; nothing is drawn then, and 0 stands in for it.
   */
  function MaxNodes(visuals: seq<LayerVisual>): (r: nat)
    ensures forall i :: 0 <= i < |visuals| ==> visuals[i].nodes <= r
    ensures |visuals| > 0 ==> exists i :: 0 <= i < |visuals| && visuals[i].nodes == r
  {
    if |visuals| == 0 then 0
    else
      var rest := MaxNodes(visuals[1..]);
      assert forall i :: 1 <= i < |visuals| ==> visuals[i] == visuals[1..][i - 1];
      if visuals[0].nodes >= rest then visuals[0].nodes else rest
  }

  /** `xSpacing = networkAreaWidth / (layerVisuals.length + 1)`. */
  function XSpacing(layerCount: nat): real
  {
    NetworkAreaWidth / ((layerCount + 1) as real)
  }

  /** `ySpacing = canvasHeight / (maxNodes + 1)`. */
  function YSpacing(maxNodes: nat): real
  {
    NetworkAreaHeight / ((maxNodes + 1) as real)
  }

  /** A point of the canvas. */
  type Position = (real, real)

  /** Centre of node j of column i: `(networkAreaStartX + xSpacing * (i + 1), ySpacing * (j + 1))`. */
  function NodeCentre(visuals: seq<LayerVisual>, i: nat, j: nat): Position
  {
    (NetworkAreaStartX + XSpacing(|visuals|) * ((i + 1) as real),
     YSpacing(MaxNodes(visuals)) * ((j + 1) as real))
  }

  /** `model.layers[i].getWeights()[0].arraySync()[j][k]`: the kernel entry from node j of layer i - 1 to node k of layer i. */
  type Weights = (nat, nat, nat) -> JsNumber

  /** A connection line and its colour: green for a positive weight, red otherwise. */
  datatype Line = Line(from: Position, to: Position, green: bool)

  /** The line from node j of column i - 1 to node k of column i. */
  function EdgeLine(visuals: seq<LayerVisual>, weight: Weights, i: nat, j: nat, k: nat): Line
    requires i >= 1
  {
    Line(NodeCentre(visuals, i - 1, j), NodeCentre(visuals, i, k), GreaterThan(weight(i, j, k), 0.0))
  }

  /** The innermost loop: the lines from node j of column i - 1, one per node k of column i. */
  function Fan(visuals: seq<LayerVisual>, weight: Weights, i: nat, j: nat): seq<Line>
    requires 1 <= i < |visuals|
  {
    seq(visuals[i].nodes, k requires 0 <= k < visuals[i].nodes => EdgeLine(visuals, weight, i, j, k))
  }

  /** The middle loop from source node j on: the lines into column i. */
  function LayerLines(visuals: seq<LayerVisual>, weight: Weights, i: nat, j: nat): seq<Line>
    requires 1 <= i < |visuals|
    decreases visuals[i - 1].nodes - j
  {
    if j < visuals[i - 1].nodes then Fan(visuals, weight, i, j) + LayerLines(visuals, weight, i, j + 1) else []
  }

  /** The outer loop from column i on. */
  function LinesFrom(visuals: seq<LayerVisual>, weight: Weights, i: nat): seq<Line>
    requires i >= 1
    decreases |visuals| - i
  {
    if i < |visuals| then LayerLines(visuals, weight, i, 0) + LinesFrom(visuals, weight, i + 1) else []
  }

  /** Every line drawNetwork draws, in drawing order. */
  function NetworkLines(visuals: seq<LayerVisual>, weight: Weights): seq<Line>
  {
    LinesFrom(visuals, weight, 1)
  }

  /** The inner node loop: the centres of the nodes of column i, top to bottom. */
  function ColumnCircles(visuals: seq<LayerVisual>, i: nat): seq<Position>
    requires i < |visuals|
  {
    seq(visuals[i].nodes, j requires 0 <= j < visuals[i].nodes => NodeCentre(visuals, i, j))
  }

  /** The node loop from column i on: the centres of the circles drawn. */
  function CirclesFrom(visuals: seq<LayerVisual>, i: nat): seq<Position>
    decreases |visuals| - i
  {
    if i < |visuals| then ColumnCircles(visuals, i) + CirclesFrom(visuals, i + 1) else []
  }

  /** Every node circle drawNetwork draws, in drawing order. */
  function Circles(visuals: seq<LayerVisual>): seq<Position>
  {
    CirclesFrom(visuals, 0)
  }

  /** Σ nodes[i-1] * nodes[i] over the columns from i on. */
  function EdgeCountFrom(visuals: seq<LayerVisual>, i: nat): nat
    requires i >= 1
    decreases |visuals| - i
  {
    if i < |visuals| then visuals[i - 1].nodes * visuals[i].nodes + EdgeCountFrom(visuals, i + 1) else 0
  }

  /**
   * drawNetwork: with the spacings computed from the number of layers and
   * the largest layer, draw the connection lines, then the node circles on
   * top. Returns both in drawing order.
   */
  method DrawNetwork(visuals: seq<LayerVisual>, weight: Weights) returns (lines: seq<Line>, circles: seq<Position>)
    ensures lines == NetworkLines(visuals, weight)
    ensures circles == Circles(visuals)
  {
    lines := DrawConnections(visuals, weight);
    circles := DrawNodes(visuals);
  }

  /**
   * The connection loops of drawNetwork: for each column i >= 1, each node
   * j of column i - 1 and each node k of column i, the line between them
   * coloured by the weight at (i, j, k).
   */
  method DrawConnections(visuals: seq<LayerVisual>, weight: Weights) returns (lines: seq<Line>)
    ensures lines == NetworkLines(visuals, weight)
  {
    lines := [];
    var i := 1;
    while i < |visuals|
      invariant 1 <= i && (i <= |visuals| || |visuals| == 0)
      invariant lines + LinesFrom(visuals, weight, i) == NetworkLines(visuals, weight)
    {
      var layerLines := DrawLayerConnections(visuals, weight, i);
      lines := lines + layerLines;
      i := i + 1;
    }
  }

  /** The two inner connection loops for column i: from each node j of column i - 1 to each node k of column i. */
  method DrawLayerConnections(visuals: seq<LayerVisual>, weight: Weights, i: nat) returns (lines: seq<Line>)
    requires 1 <= i < |visuals|
    ensures lines == LayerLines(visuals, weight, i, 0)
  {
    lines := [];
    var j := 0;
    while j < visuals[i - 1].nodes
      invariant 0 <= j <= visuals[i - 1].nodes
      invariant lines + LayerLines(visuals, weight, i, j) == LayerLines(visuals, weight, i, 0)
    {
      var fan := DrawFan(visuals, weight, i, j);
      lines := lines + fan;
      j := j + 1;
    }
  }

  /** The innermost connection loop: the lines from node j of column i - 1 to each node k of column i. */
  method DrawFan(visuals: seq<LayerVisual>, weight: Weights, i: nat, j: nat) returns (lines: seq<Line>)
    requires 1 <= i < |visuals|
    ensures lines == Fan(visuals, weight, i, j)
  {
    lines := [];
    var k := 0;
    while k < visuals[i].nodes
      invariant 0 <= k <= visuals[i].nodes
      invariant lines == Fan(visuals, weight, i, j)[..k]
    {
      lines := lines + [EdgeLine(visuals, weight, i, j, k)];
      k := k + 1;
    }
  }

  /** The node loops of drawNetwork: for each column i and each node j of it, a circle at its centre. */
  method DrawNodes(visuals: seq<LayerVisual>) returns (circles: seq<Position>)
    ensures circles == Circles(visuals)
  {
    circles := [];
    var i := 0;
    while i < |visuals|
      invariant 0 <= i <= |visuals|
      invariant circles + CirclesFrom(visuals, i) == Circles(visuals)
    {
      var column := DrawColumn(visuals, i);
      circles := circles + column;
      i := i + 1;
    }
  }

  method DrawColumn(visuals: seq<LayerVisual>, i: nat) returns (column: seq<Position>)
    requires i < |visuals|
    ensures column == ColumnCircles(visuals, i)
  {
    column := [];
    var j := 0;
    while j < visuals[i].nodes
      invariant 0 <= j <= visuals[i].nodes
      invariant column == ColumnCircles(visuals, i)[..j]
    {
      column := column + [NodeCentre(visuals, i, j)];
      j := j + 1;
    }
  }

  /** The lines into column i from source node j on number (nodes[i-1] - j) * nodes[i]. */
  lemma {:induction false} LayerLinesCount(visuals: seq<LayerVisual>, weight: Weights, i: nat, j: nat)
    requires 1 <= i < |visuals| && j <= visuals[i - 1].nodes
    ensures |LayerLines(visuals, weight, i, j)| == (visuals[i - 1].nodes - j) * visuals[i].nodes
    decreases visuals[i - 1].nodes - j
  {
    if j < visuals[i - 1].nodes {
      LayerLinesCount(visuals, weight, i, j + 1);
      var n := visuals[i - 1].nodes - j;
      assert n * visuals[i].nodes == visuals[i].nodes + (n - 1) * visuals[i].nodes;
    }
  }

  /** drawNetwork draws Σ nodes[i-1] * nodes[i] lines over consecutive layers. */
  lemma {:induction false} LineCount(visuals: seq<LayerVisual>, weight: Weights, i: nat)
    requires i >= 1
    ensures |LinesFrom(visuals, weight, i)| == EdgeCountFrom(visuals, i)
    decreases |visuals| - i
  {
    if i < |visuals| {
      LineCount(visuals, weight, i + 1);
      LayerLinesCount(visuals, weight, i, 0);
    }
  }

  /** `line` joins node j of column l - 1 to node k of column l for some l >= lo, j and k in range. */
  predicate IsEdge(visuals: seq<LayerVisual>, weight: Weights, lo: nat, line: Line)
  {
    exists l: nat, j: nat, k: nat :: lo <= l < |visuals| && 1 <= l && j < visuals[l - 1].nodes && k < visuals[l].nodes &&
      line == EdgeLine(visuals, weight, l, j, k)
  }

  /** `line` joins node j of column i - 1, for some j >= j0, to some node k of column i. */
  predicate IsLayerEdge(visuals: seq<LayerVisual>, weight: Weights, i: nat, j0: nat, line: Line)
    requires 1 <= i < |visuals|
  {
    exists j: nat, k: nat :: j0 <= j < visuals[i - 1].nodes && k < visuals[i].nodes &&
      line == EdgeLine(visuals, weight, i, j, k)
  }

  /**
   * Each line drawn from column i on joins node j of column l - 1 to node
   * k of column l for some column l >= i and indices j < nodes[l-1],
   * k < nodes[l].
   */
  lemma {:induction false} LinesAreEdges(visuals: seq<LayerVisual>, weight: Weights, i: nat)
    requires i >= 1
    ensures forall n :: 0 <= n < |LinesFrom(visuals, weight, i)| ==>
      IsEdge(visuals, weight, i, LinesFrom(visuals, weight, i)[n])
    decreases |visuals| - i
  {
    if i < |visuals| {
      LinesAreEdges(visuals, weight, i + 1);
      var head := LayerLines(visuals, weight, i, 0);
      var tail := LinesFrom(visuals, weight, i + 1);
      LayerLinesAreEdges(visuals, weight, i, 0);
      var all := LinesFrom(visuals, weight, i);
      assert all == head + tail;
      forall n | 0 <= n < |all|
        ensures IsEdge(visuals, weight, i, all[n])
      {
        if n < |head| {
          assert IsLayerEdge(visuals, weight, i, 0, head[n]);
          var j: nat, k: nat :| j < visuals[i - 1].nodes && k < visuals[i].nodes &&
            head[n] == EdgeLine(visuals, weight, i, j, k);
          assert all[n] == EdgeLine(visuals, weight, i, j, k);
        } else {
          assert IsEdge(visuals, weight, i + 1, tail[n - |head|]);
          assert all[n] == tail[n - |head|];
        }
      }
    }
  }

  /** The lines into column i from source node j0 on each join some node j >= j0 of column i - 1 to a node of column i. */
  lemma {:induction false} LayerLinesAreEdges(visuals: seq<LayerVisual>, weight: Weights, i: nat, j0: nat)
    requires 1 <= i < |visuals|
    ensures forall n :: 0 <= n < |LayerLines(visuals, weight, i, j0)| ==>
      IsLayerEdge(visuals, weight, i, j0, LayerLines(visuals, weight, i, j0)[n])
    decreases visuals[i - 1].nodes - j0
  {
    if j0 < visuals[i - 1].nodes {
      LayerLinesAreEdges(visuals, weight, i, j0 + 1);
      var fan := Fan(visuals, weight, i, j0);
      var rest := LayerLines(visuals, weight, i, j0 + 1);
      var all := LayerLines(visuals, weight, i, j0);
      assert all == fan + rest;
      forall n | 0 <= n < |all|
        ensures IsLayerEdge(visuals, weight, i, j0, all[n])
      {
        if n < |fan| {
          assert all[n] == EdgeLine(visuals, weight, i, j0, n);
        } else {
          assert IsLayerEdge(visuals, weight, i, j0 + 1, rest[n - |fan|]);
          assert all[n] == rest[n - |fan|];
        }
      }
    }
  }

  /** Node j of column i is one of the circles drawn, for every column i and j < nodes[i]. */
  lemma {:induction false} CircleDrawn(visuals: seq<LayerVisual>, i0: nat, i: nat, j: nat)
    requires i0 <= i < |visuals| && j < visuals[i].nodes
    ensures NodeCentre(visuals, i, j) in CirclesFrom(visuals, i0)
    decreases i - i0
  {
    var column := ColumnCircles(visuals, i0);
    assert CirclesFrom(visuals, i0) == column + CirclesFrom(visuals, i0 + 1);
    if i == i0 {
      assert column[j] == NodeCentre(visuals, i, j);
    } else {
      CircleDrawn(visuals, i0 + 1, i, j);
    }
  }

  /**
   * `line` starts at the centre of node j of column i - 1 and ends at the
   * centre of node k of column i, both of them circles of the drawing, for
   * some layer i >= 1 and j < nodes[i-1], k < nodes[i]; and it is green
   * exactly when the weight at (i, j, k) is above zero.
   */
  predicate JoinsCircles(visuals: seq<LayerVisual>, weight: Weights, line: Line)
  {
    exists i: nat, j: nat, k: nat ::
      && 1 <= i < |visuals| && j < visuals[i - 1].nodes && k < visuals[i].nodes
      && line.from == NodeCentre(visuals, i - 1, j) && line.from in Circles(visuals)
      && line.to == NodeCentre(visuals, i, k) && line.to in Circles(visuals)
      && (line.green <==> GreaterThan(weight(i, j, k), 0.0))
  }

  /**
   * Every line drawn joins the centres of two node circles in consecutive
   * columns, and is green exactly when its weight is above zero (so a zero
   * or NaN weight is drawn red).
   */
  lemma LinesJoinCircles(visuals: seq<LayerVisual>, weight: Weights)
    ensures forall n :: 0 <= n < |NetworkLines(visuals, weight)| ==>
      JoinsCircles(visuals, weight, NetworkLines(visuals, weight)[n])
  {
    var lines := NetworkLines(visuals, weight);
    LinesAreEdges(visuals, weight, 1);
    assert lines == LinesFrom(visuals, weight, 1);
    forall n | 0 <= n < |lines|
      ensures JoinsCircles(visuals, weight, lines[n])
    {
      assert IsEdge(visuals, weight, 1, lines[n]);
      var i: nat, j: nat, k: nat :| 1 <= i < |visuals| && j < visuals[i - 1].nodes && k < visuals[i].nodes &&
        lines[n] == EdgeLine(visuals, weight, i, j, k);
      CircleDrawn(visuals, 0, i - 1, j);
      CircleDrawn(visuals, 0, i, k);
    }
  }

  /** A fraction c * n / d of c, for 1 <= n < d, lies strictly between 0 and c. */
  lemma FractionInside(c: real, n: nat, d: nat)
    requires c > 0.0 && 1 <= n < d
    ensures 0.0 < (c / d as real) * n as real < c
  {
    var q := c / d as real;
    assert q * d as real == c;
    assert q > 0.0;
    assert q * d as real - q * n as real == q * (d - n) as real;
    assert q * (d - n) as real > 0.0;
  }

  /**
   * Every node centre lies strictly inside the network half of the canvas:
   * x in (networkAreaStartX, canvasWidth) and y in (0, canvasHeight). The
   * circles drawn there have diameter 20, so with many nodes they can
   * reach past an edge; only their centres are bounded.
   */
  lemma NodesInsideNetworkArea(visuals: seq<LayerVisual>, i: nat, j: nat)
    requires i < |visuals| && j < visuals[i].nodes
    ensures NetworkAreaStartX < NodeCentre(visuals, i, j).0 < NetworkAreaStartX + NetworkAreaWidth
    ensures 0.0 < NodeCentre(visuals, i, j).1 < NetworkAreaHeight
  {
    FractionInside(NetworkAreaWidth, i + 1, |visuals| + 1);
    FractionInside(NetworkAreaHeight, j + 1, MaxNodes(visuals) + 1);
  }

  /** Every circle centre in the drawing is some node's centre, so all of them lie inside the network half. */
  lemma {:induction false} CirclesInsideNetworkArea(visuals: seq<LayerVisual>, i0: nat)
    ensures forall c :: c in CirclesFrom(visuals, i0) ==>
      NetworkAreaStartX < c.0 < NetworkAreaStartX + NetworkAreaWidth && 0.0 < c.1 < NetworkAreaHeight
    decreases |visuals| - i0
  {
    if i0 < |visuals| {
      CirclesInsideNetworkArea(visuals, i0 + 1);
      var column := ColumnCircles(visuals, i0);
      assert CirclesFrom(visuals, i0) == column + CirclesFrom(visuals, i0 + 1);
      forall j | 0 <= j < |column|
        ensures NetworkAreaStartX < column[j].0 < NetworkAreaStartX + NetworkAreaWidth && 0.0 < column[j].1 < NetworkAreaHeight
      {
        NodesInsideNetworkArea(visuals, i0, j);
      }
    }
  }

  /** For the [5, 4, 1] network drawNetwork draws 5*4 + 4*1 = 24 lines and 10 circles. */
  lemma PlaygroundNetworkDrawing(activation: string, weight: Weights)
    ensures |NetworkLines(VisualsOf(PlaygroundLayers(activation)), weight)| == 24
    ensures |Circles(VisualsOf(PlaygroundLayers(activation)))| == 10
  {
    var v := VisualsOf(PlaygroundLayers(activation));
    LineCount(v, weight, 1);
    assert EdgeCountFrom(v, 3) == 0;
    assert EdgeCountFrom(v, 2) == 4;
    assert |CirclesFrom(v, 3)| == 0;
    assert |CirclesFrom(v, 2)| == 1;
    assert |CirclesFrom(v, 1)| == 5;
  }
}
