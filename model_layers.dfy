/**
 * The model's layer list as both revisions of the playground read it, and
 * the `layerVisuals` records that `prepareVisualizationData` derives from
 * it. Both revisions build the same three dense layers in `initializeModel`
 * and walk `model.layers` the same way.
 */
module ModelLayers {

  /** A dense layer of the model as far as the playground reads it. */
  datatype Dense = Dense(units: nat, activation: string)

  /** An entry of `layerVisuals`: `{nodes, activations}`. */
  datatype LayerVisual = LayerVisual(nodes: nat, activations: seq<real>)

  /** `Array(n).fill(0)`. */
  function Zeros(n: nat): (r: seq<real>)
    ensures |r| == n && forall i :: 0 <= i < n ==> r[i] == 0.0
  {
    seq(n, _ => 0.0)
  }

  /**
   * What prepareVisualizationData leaves in `layerVisuals`: one entry per
   * model layer, in order, with as many nodes as the layer has units and an
   * all-zero activation array of that length. The 2-wide input is not a
   * layer of the model, so it has no entry.
   */
  function VisualsOf(layers: seq<Dense>): (r: seq<LayerVisual>)
    ensures |r| == |layers|
    ensures forall i :: 0 <= i < |r| ==>
      r[i].nodes == layers[i].units && r[i].activations == Zeros(layers[i].units)
  {
    seq(|layers|, i requires 0 <= i < |layers| => LayerVisual(layers[i].units, Zeros(layers[i].units)))
  }

  /**
   * The layers initializeModel adds: dense layers of 5 and 4 units with the
   * chosen activation, then a sigmoid output unit.
   */
  function PlaygroundLayers(activation: string): seq<Dense>
  {
    [Dense(5, activation), Dense(4, activation), Dense(1, "sigmoid")]
  }

  /**
   * After initializeModel, `layerVisuals` has exactly three entries with 5,
   * 4 and 1 nodes, each with that many zero activations; the output layer
   * is sigmoid and the first two layers use the chosen activation.
   */
  lemma PlaygroundVisuals(activation: string)
    ensures var v := VisualsOf(PlaygroundLayers(activation));
      && |v| == 3
      && v[0].nodes == 5 && v[1].nodes == 4 && v[2].nodes == 1
      && forall i :: 0 <= i < 3 ==>
           (|v[i].activations| == v[i].nodes && forall a :: 0 <= a < |v[i].activations| ==> v[i].activations[a] == 0.0)
    ensures PlaygroundLayers(activation)[2].activation == "sigmoid"
    ensures forall i :: 0 <= i < 2 ==> PlaygroundLayers(activation)[i].activation == activation
  {
  }
}
