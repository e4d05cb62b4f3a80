/**
 * Client code that drives the construction and dispatch protocol from the
 * outside, as the embedding application does: allocate layers, construct
 * them in chain order, bind tensor storage (the memory planner's job), then
 * run forward and backward. What each method ensures follows from the
 * layer contracts alone.
 */
module Scenarios {
  import opened Tensors
  import opened Layers
  import LeakyReluLayer
  import SigmoidLayer

  /** A first layer whose result holds `values` as a 1 x |values| tensor. */
  method InputLayer(values: seq<real>) returns (input: Layer)
    ensures fresh(input) && fresh(input.result) && fresh(input.deltas)
    ensures fresh(input.result.data) && input.result.data[..] == values
    ensures input.result.dim == 2 && fresh(input.result.shape)
  {
    input := new Layer();
    var shape := new nat[2];
    shape[0], shape[1] := 1, |values|;
    var data := new real[|values|](i requires 0 <= i < |values| => values[i]);
    input.result.dim := 2;
    input.result.shape := shape;
    input.result.data := data;
  }

  /** Binds fresh storage of n elements to a layer's result and deltas. */
  method BindStorage(layer: Layer, n: nat)
    requires layer.TensorsDistinct()
    modifies layer.result, layer.deltas
    ensures layer.result.data.Length == n && layer.deltas.data.Length == n
    ensures fresh(layer.result.data) && fresh(layer.deltas.data)
    ensures layer.result.data != layer.deltas.data
    ensures layer.result.shape == old(layer.result.shape) && layer.deltas.shape == old(layer.deltas.shape)
  {
    var r := new real[n];
    var d := new real[n];
    layer.result.data := r;
    layer.deltas.data := d;
  }

  /** Input layer -> Leaky ReLU layer with leak coefficient alpha; returns the latter. */
  method LeakyReluAfterInput(xs: seq<real>, alpha: real) returns (layer: Layer)
    ensures layer.layerConfiguration is LeakyReluLayer.LeakyReluConfig
    ensures LeakyReluLayer.Configuration(layer).alpha == alpha
    ensures layer.inputLayer != null && layer.inputLayer != layer
    ensures Linked(layer.inputLayer, layer)
    ensures layer.inputLayer.result.data[..] == xs
    ensures layer.result.shape == layer.inputLayer.result.shape
    ensures fresh(layer) && fresh(layer.result) && fresh(layer.deltas) && layer.TensorsDistinct()
    ensures fresh(layer.inputLayer) && fresh(layer.inputLayer.result) && fresh(layer.inputLayer.result.data)
    ensures layer.inputLayer.result != layer.result && layer.inputLayer.result != layer.deltas
  {
    var input := InputLayer(xs);
    var relu := new LeakyReluLayer.LeakyReluConfig(DType("f32"), alpha);
    layer := LeakyReluLayer.Construct(relu, input);
  }

  /**
   * Input layer -> Leaky ReLU layer -> second Leaky ReLU layer, all with leak
   * coefficient alpha; storage is bound to the middle layer and the last
   * layer's deltas hold `upstream`. Returns the middle layer.
   */
  method LeakyReluChain(xs: seq<real>, upstream: seq<real>, alpha: real) returns (layer: Layer)
    requires |xs| == |upstream|
    ensures layer.layerConfiguration is LeakyReluLayer.LeakyReluConfig
    ensures LeakyReluLayer.Configuration(layer).alpha == alpha
    ensures layer.inputLayer != null && layer.outputLayer != null
    ensures Linked(layer.inputLayer, layer) && Linked(layer, layer.outputLayer)
    ensures layer.inputLayer.result.data[..] == xs && layer.outputLayer.deltas.data[..] == upstream
    ensures layer.result.data.Length == |xs| && layer.deltas.data.Length == |xs|
    ensures fresh(layer.result.data) && fresh(layer.deltas.data)
    ensures layer.result.data != layer.inputLayer.result.data
    ensures layer.result.data != layer.outputLayer.deltas.data
    ensures layer.deltas.data != layer.outputLayer.deltas.data
    ensures layer.outputLayer.result.shape == layer.inputLayer.result.shape
  {
    layer := LeakyReluAfterInput(xs, alpha);
    var nextRelu := new LeakyReluLayer.LeakyReluConfig(DType("f32"), alpha);
    var next := LeakyReluLayer.Construct(nextRelu, layer);
    assert Linked(layer, next) && next.result.shape == layer.result.shape;
    BindStorage(layer, |xs|);
    var deltas := new real[|upstream|](i requires 0 <= i < |upstream| => upstream[i]);
    next.deltas.data := deltas;
  }

  /**
   * A Leaky ReLU layer with leak coefficient 0.1 after an input layer that
   * produces the 1x4 tensor [-2, -0.5, 0, 3], followed by a second Leaky
   * ReLU layer whose deltas are all ones. Also reports whether the second
   * layer's result shape is the input layer's shape array itself.
   */
  method LeakyReluScenario() returns (output: seq<real>, gradient: seq<real>, sharedShape: bool)
    ensures output == [-0.2, -0.05, 0.0, 3.0]
    ensures gradient == [0.1, 0.1, 1.0, 1.0]
    ensures sharedShape
  {
    var xs: seq<real> := [-2.0, -0.5, 0.0, 3.0];
    var gs: seq<real> := [1.0, 1.0, 1.0, 1.0];
    var layer := LeakyReluChain(xs, gs, 0.1);
    sharedShape := layer.outputLayer.result.shape == layer.inputLayer.result.shape;

    LeakyReluLayer.Forward(layer);
    output := layer.result.data[..];

    LeakyReluLayer.Backward(layer);
    gradient := layer.deltas.data[..];
    LeakyReluLayer.BackwardElement(0.1, xs, gs, 0);
    LeakyReluLayer.BackwardElement(0.1, xs, gs, 1);
    LeakyReluLayer.BackwardElement(0.1, xs, gs, 2);
    LeakyReluLayer.BackwardElement(0.1, xs, gs, 3);
  }

  /**
   * Input layer -> Sigmoid layer -> a successor whose deltas hold
   * `upstream`; storage is bound to the Sigmoid layer. Returns that layer.
   * The successor is a one-way stand-in: only the Sigmoid layer's
   * `outputLayer` points at it (its own `inputLayer` stays null), since
   * backward reads nothing of it but its deltas, which hold delta_out.
   */
  method SigmoidChain(xs: seq<real>, upstream: seq<real>, sigmoid: real -> real, dSigmoid: real -> real)
    returns (layer: Layer)
    requires |xs| == |upstream|
    ensures layer.layerConfiguration is SigmoidLayer.SigmoidConfig
    ensures SigmoidLayer.Configuration(layer).sigmoid == sigmoid
    ensures SigmoidLayer.Configuration(layer).dSigmoid == dSigmoid
    ensures layer.inputLayer != null && layer.outputLayer != null
    ensures layer.inputLayer.result.data[..] == xs && layer.outputLayer.deltas.data[..] == upstream
    ensures layer.result.data.Length == |xs| && layer.deltas.data.Length == |xs|
    ensures fresh(layer.result.data) && fresh(layer.deltas.data)
    ensures layer.result.data != layer.inputLayer.result.data
    ensures layer.result.data != layer.outputLayer.deltas.data
  {
    var input := InputLayer(xs);
    var config := new SigmoidLayer.SigmoidConfig(DType("f32"), sigmoid, dSigmoid);
    layer := SigmoidLayer.Construct(config, input);
    var next := new Layer();
    layer.outputLayer := next;
    BindStorage(layer, |xs|);
    var deltas := new real[|upstream|](i requires 0 <= i < |upstream| => upstream[i]);
    next.deltas.data := deltas;
  }

  /**
   * A Sigmoid layer on the single input 0, whose derivative kernel maps a
   * sigmoid output y to y * (1 - y), with upstream gradient 1.
   */
  method SigmoidAtZero(sigmoid: real -> real) returns (output: seq<real>, gradient: seq<real>)
    requires sigmoid(0.0) == 0.5
    ensures output == [0.5]
    ensures gradient == [0.25]
  {
    var dSigmoid := y => y * (1.0 - y);
    var layer := SigmoidChain([0.0], [1.0], sigmoid, dSigmoid);

    SigmoidLayer.Forward(layer);
    output := layer.result.data[..];

    SigmoidLayer.Backward(layer);
    gradient := layer.deltas.data[..];
    SigmoidLayer.BackwardElement(sigmoid, dSigmoid, [0.0], [1.0], 0);
  }
}
