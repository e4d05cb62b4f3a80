/**
 * The data-type independent Leaky ReLU activation layer
 * (ailayer_leaky_relu.h / ailayer_leaky_relu.c): y = alpha * x for x < 0
 * and y = x for x >= 0, elementwise.
 *
 * The kernels the caller installs are modelled by their documented
 * contracts (module Kernels); the leak coefficient `alpha`, an opaque scalar
 * in the layer's data type, is a `real`.
 */
module LeakyReluLayer {
  import opened Tensors
  import opened Kernels
  import opened Layers

  /** The concrete layer state (ailayer_leaky_relu_t), populated by the caller. */
  class LeakyReluConfig {
    const base: Layer
    var dtype: DType
    var alpha: real

    constructor (dtype: DType, alpha: real)
      ensures this.dtype == dtype && this.alpha == alpha
      ensures fresh(base) && fresh(base.result) && fresh(base.deltas) && base.TensorsDistinct()
    {
      base := new Layer();
      this.dtype := dtype;
      this.alpha := alpha;
    }
  }

  /** The concrete state a layer function recovers from its base layer. */
  function Configuration(self: Layer): (layer: LeakyReluConfig)
    reads self
    requires self.layerConfiguration is LeakyReluConfig
  {
    self.layerConfiguration as LeakyReluConfig
  }

  /**
   * Initializes `layer.base` and links it after `inputLayer`; returns the base.
   * The result shape is the predecessor's shape array itself, not a copy.
   */
  method Construct(layer: LeakyReluConfig, inputLayer: Layer) returns (r: Layer)
    requires layer.base.TensorsDistinct()
    modifies layer.base, layer.base.result, layer.base.deltas, inputLayer`outputLayer
    ensures r == layer.base
    ensures r.layerType == LeakyReluType
    ensures Linked(inputLayer, r)
    ensures r.layerConfiguration is LeakyReluConfig && Configuration(r) == layer
    ensures r.result.shape == old(inputLayer.result.shape) && r.result.dim == old(inputLayer.result.dim)
    ensures r.deltas.shape == r.result.shape && r.deltas.dim == 2
    ensures r.result.dtype == layer.dtype && r.deltas.dtype == layer.dtype
    ensures r.forward == LeakyReluForward && r.backward == LeakyReluBackward
    ensures r.calcResultShape == LeakyReluCalcResultShape
    ensures r.sizeofParamem == Null && r.setParamem == Null
    ensures r.sizeofTrainmem == Null && r.setTrainmem == Null
    ensures r.trainableParamsCount == 0
    ensures SharesInputShape(r)
    ensures r.result.data == old(r.result.data) && r.deltas.data == old(r.deltas.data)
    ensures inputLayer != r ==> r.outputLayer == old(r.outputLayer)
  {
    var base := layer.base;
    base.layerType := LeakyReluType;

    base.inputLayer := inputLayer;
    inputLayer.outputLayer := base;
    base.layerConfiguration := layer;
    base.result.dtype := layer.dtype;
    base.result.shape := inputLayer.result.shape;
    base.result.dim := inputLayer.result.dim;

    base.deltas.dtype := layer.dtype;
    base.deltas.dim := 2;
    base.deltas.shape := base.result.shape;

    base.forward := LeakyReluForward;
    base.backward := LeakyReluBackward;

    base.calcResultShape := LeakyReluCalcResultShape;
    base.sizeofParamem := Null;
    base.setParamem := Null;
    base.sizeofTrainmem := Null;
    base.setTrainmem := Null;

    base.trainableParamsCount := 0;

    r := base;
  }

  /** Forward pass: x_out := LeakyReLU(x_in), where x_in is the predecessor's result. */
  method Forward(self: Layer)
    requires self.layerConfiguration is LeakyReluConfig
    requires self.inputLayer != null
    requires self.inputLayer.result.data.Length == self.result.data.Length
    modifies self.result.data
    ensures self.result.data[..] ==
      MapSeq(Leaky(Configuration(self).alpha), old(self.inputLayer.result.data[..]))
    ensures forall i :: 0 <= i < self.result.data.Length ==>
      self.result.data[i] == LeakyRelu(old(self.inputLayer.result.data[i]), Configuration(self).alpha)
  {
    var layer := Configuration(self);
    var xIn := self.inputLayer.result;
    var xOut := self.result;

    LeakyReluKernel(xIn, layer.alpha, xOut);
  }

  /**
   * Backward pass: delta_in := delta_out ∘ LeakyReLU'(x_in). The derivative
   * is written into this layer's deltas, which are then multiplied in place
   * by the successor's deltas; so the two deltas buffers must differ.
   */
  method Backward(self: Layer)
    requires self.layerConfiguration is LeakyReluConfig
    requires self.inputLayer != null && self.outputLayer != null
    requires self.inputLayer.result.data.Length == self.deltas.data.Length
    requires self.outputLayer.deltas.data.Length == self.deltas.data.Length
    requires self.deltas.data != self.outputLayer.deltas.data
    modifies self.deltas.data
    ensures self.deltas.data[..] ==
      MultiplySeq(old(self.outputLayer.deltas.data[..]),
                  MapSeq(DLeaky(Configuration(self).alpha), old(self.inputLayer.result.data[..])))
  {
    var layer := Configuration(self);
    var deltaIn := self.deltas;
    var deltaOut := self.outputLayer.deltas;
    var xIn := self.inputLayer.result;

    ghost var x0, g0 := xIn.data[..], deltaOut.data[..];
    DLeakyReluKernel(xIn, layer.alpha, deltaIn);
    ghost var derivative := deltaIn.data[..];
    assert derivative == MapSeq(DLeaky(layer.alpha), x0);
    assert deltaOut.data[..] == g0;
    Multiply(deltaIn, deltaOut, deltaIn);
    MultiplySeqCommutes(derivative, g0);
  }

  /** Element i of the backward result: the upstream gradient times the slope at x_in[i]. */
  lemma {:induction false} BackwardElement(alpha: real, xIn: seq<real>, deltaOut: seq<real>, i: nat)
    requires |xIn| == |deltaOut| && i < |xIn|
    ensures MultiplySeq(deltaOut, MapSeq(DLeaky(alpha), xIn))[i]
            == deltaOut[i] * (if xIn[i] < 0.0 then alpha else 1.0)
  {
    MapSeqAt(DLeaky(alpha), xIn, i);
    MultiplySeqAt(deltaOut, MapSeq(DLeaky(alpha), xIn), i);
  }

  /** Shape inference: nothing to do, the result shape is shared with the predecessor. */
  method CalcResultShape(self: Layer)
    ensures unchanged(self, self.result, self.deltas)
    ensures old(SharesInputShape(self)) ==> SharesInputShape(self)
  {
  }
}
