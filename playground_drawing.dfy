/**
 * What neuralNetworkPlayground.js draws on the data canvas: `visualizeData`
 * draws the ground truth, a circle filled blue for a label-0 point and a
 * plus sign filled red for any other; `drawDecisionBoundary` draws every
 * point again with the same shape, its fill chosen by the model's
 * prediction for it. The colour of a glyph is the fill state: a plus sign
 * is two lines drawn with a black stroke, so it shows black whatever its
 * fill.
 *
 * A drawing is modelled as the sequence of glyphs drawn, in order. The
 * predictions are the model's outputs for the current data, an input here;
 * stroke weights and glyph sizes are not modelled.
 */
module PlaygroundDrawing {
  import opened JsValues
  import opened PlaygroundData

  datatype Colour = Blue | Red

  /** An `ellipse` or a `drawPlusSign` at a point, with the fill colour set for it. */
  datatype Glyph = Circle(x: real, y: real, colour: Colour) | PlusSign(x: real, y: real, colour: Colour)

  /** The ground-truth glyph of a point: `point.label === 0` decides shape and colour. */
  function TruthGlyph(p: Point): Glyph
  {
    if p.classLabel == 0 then Circle(p.x, p.y, Blue) else PlusSign(p.x, p.y, Red)
  }

  function TruthGlyphs(data: seq<Point>): seq<Glyph>
  {
    seq(|data|, i requires 0 <= i < |data| => TruthGlyph(data[i]))
  }

  /**
   * The glyph drawDecisionBoundary draws for a point: the shape follows the
   * label; a circle is blue when `prediction < 0.5` and a plus sign is red
   * when `prediction >= 0.5`, each red or blue otherwise.
   */
  function BoundaryGlyph(p: Point, prediction: JsNumber): Glyph
  {
    if p.classLabel == 0 then Circle(p.x, p.y, if LessThan(prediction, 0.5) then Blue else Red)
    else PlusSign(p.x, p.y, if AtLeast(prediction, 0.5) then Red else Blue)
  }

  /** Point i paired with `predictions[i]` (undefined past the end, which compares like NaN). */
  function BoundaryGlyphs(data: seq<Point>, predictions: seq<JsNumber>): seq<Glyph>
  {
    seq(|data|, i requires 0 <= i < |data| => BoundaryGlyph(data[i], At(predictions, i)))
  }

  /** visualizeData: one ground-truth glyph per point of the current data, in order. */
  method VisualizeData(data: seq<Point>) returns (glyphs: seq<Glyph>)
    ensures glyphs == TruthGlyphs(data)
  {
    glyphs := [];
    var i := 0;
    while i < |data|
      invariant 0 <= i <= |data|
      invariant glyphs == TruthGlyphs(data)[..i]
    {
      var point := data[i];
      if point.classLabel == 0 {
        glyphs := glyphs + [Circle(point.x, point.y, Blue)];
      } else {
        glyphs := glyphs + [PlusSign(point.x, point.y, Red)];
      }
      i := i + 1;
    }
  }

  /** drawDecisionBoundary, once the predictions are in: one glyph per point, in order. */
  method DrawDecisionBoundary(data: seq<Point>, predictions: seq<JsNumber>) returns (glyphs: seq<Glyph>)
    ensures glyphs == BoundaryGlyphs(data, predictions)
  {
    glyphs := [];
    var i := 0;
    while i < |data|
      invariant 0 <= i <= |data|
      invariant glyphs == BoundaryGlyphs(data, predictions)[..i]
    {
      var prediction := At(predictions, i);
      var point := data[i];
      if point.classLabel == 0 {
        glyphs := glyphs + [Circle(point.x, point.y, if LessThan(prediction, 0.5) then Blue else Red)];
      } else {
        glyphs := glyphs + [PlusSign(point.x, point.y, if AtLeast(prediction, 0.5) then Red else Blue)];
      }
      i := i + 1;
    }
  }

  /**
   * Glyph i sits at point i and has the shape of its ground truth. For a
   * prediction that is a number, both shapes are red exactly when the
   * prediction is at least 0.5, so the colour is the predicted class with
   * 0.5 itself in class 1. A NaN or missing prediction makes both
   * comparisons false: circles turn red and plus signs blue.
   */
  lemma BoundaryColours(data: seq<Point>, predictions: seq<JsNumber>, i: int)
    requires 0 <= i < |data|
    ensures var g, p, n := BoundaryGlyphs(data, predictions)[i], data[i], At(predictions, i);
      && g.x == p.x && g.y == p.y
      && (g.Circle? <==> TruthGlyph(p).Circle?)
      && (!n.NaN? ==> (g.colour == Red <==> AtLeast(n, 0.5)))
      && (n.NaN? ==> (g.colour == Red <==> p.classLabel == 0))
      && (n.NaN? <==> i >= |predictions| || predictions[i].NaN?)
  {
  }

  /**
   * For a point labelled 0 or 1 and a numeric prediction, the boundary
   * glyph is the ground-truth glyph exactly when the predicted class
   * (prediction at least 0.5 means class 1) is the label.
   */
  lemma BoundaryMatchesTruth(p: Point, prediction: JsNumber)
    requires p.classLabel in {0, 1} && !prediction.NaN?
    ensures BoundaryGlyph(p, prediction) == TruthGlyph(p) <==>
      (AtLeast(prediction, 0.5) <==> p.classLabel == 1)
  {
  }
}
