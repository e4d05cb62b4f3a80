/**
 * The data-type independent Sigmoid activation layer (ailayer_sigmoid.c).
 *
 * The sigmoid kernel and its derivative kernel are installed by the caller
 * and their formulas are not part of this model: the configuration holds
 * them as arbitrary scalar rules `sigmoid` and `dSigmoid`, each applied
 * elementwise. The derivative kernel takes the sigmoid OUTPUT as its input.
 */
module SigmoidLayer {
  import opened Tensors
  import opened Kernels
  import opened Layers

  /** The concrete layer state (ailayer_sigmoid_t), populated by the caller. */
  class SigmoidConfig {
    const base: Layer
    var dtype: DType
    var sigmoid: real -> real
    var dSigmoid: real -> real

    constructor (dtype: DType, sigmoid: real -> real, dSigmoid: real -> real)
      ensures this.dtype == dtype && this.sigmoid == sigmoid && this.dSigmoid == dSigmoid
      ensures fresh(base) && fresh(base.result) && fresh(base.deltas) && base.TensorsDistinct()
    {
      base := new Layer();
      this.dtype := dtype;
      this.sigmoid := sigmoid;
      this.dSigmoid := dSigmoid;
    }
  }

  /** The concrete state a layer function recovers from its base layer. */
  function Configuration(self: Layer): (layer: SigmoidConfig)
    reads self
    requires self.layerConfiguration is SigmoidConfig
  {
    self.layerConfiguration as SigmoidConfig
  }

  /**
   * Initializes `layer.base` and links it after `inputLayer`; returns the base.
   * The result shape is the predecessor's shape array itself, not a copy.
   */
  method Construct(layer: SigmoidConfig, inputLayer: Layer) returns (r: Layer)
    requires layer.base.TensorsDistinct()
    modifies layer.base, layer.base.result, layer.base.deltas, inputLayer`outputLayer
    ensures r == layer.base
    ensures r.layerType == SigmoidType
    ensures Linked(inputLayer, r)
    ensures r.layerConfiguration is SigmoidConfig && Configuration(r) == layer
    ensures r.result.shape == old(inputLayer.result.shape) && r.result.dim == old(inputLayer.result.dim)
    ensures r.deltas.shape == r.result.shape && r.deltas.dim == 2
    ensures r.result.dtype == layer.dtype && r.deltas.dtype == layer.dtype
    ensures r.forward == SigmoidForward && r.backward == SigmoidBackward
    ensures r.calcResultShape == SigmoidCalcResultShape
    ensures r.sizeofParamem == Null && r.setParamem == Null
    ensures r.sizeofTrainmem == Null && r.setTrainmem == Null
    ensures r.trainableParamsCount == 0
    ensures SharesInputShape(r)
    ensures r.result.data == old(r.result.data) && r.deltas.data == old(r.deltas.data)
    ensures inputLayer != r ==> r.outputLayer == old(r.outputLayer)
  {
    var base := layer.base;
    base.layerType := SigmoidType;

    base.inputLayer := inputLayer;
    inputLayer.outputLayer := base;

    base.layerConfiguration := layer;
    base.result.dtype := layer.dtype;
    base.result.dim := inputLayer.result.dim;
    base.result.shape := inputLayer.result.shape;

    base.deltas.dtype := layer.dtype;
    base.deltas.dim := 2;
    base.deltas.shape := base.result.shape;

    base.forward := SigmoidForward;
    base.backward := SigmoidBackward;

    base.calcResultShape := SigmoidCalcResultShape;
    base.sizeofParamem := Null;
    base.setParamem := Null;
    base.sizeofTrainmem := Null;
    base.setTrainmem := Null;

    base.trainableParamsCount := 0;

    r := base;
  }

  /** Forward pass: x_out := sigmoid(x_in), where x_in is the predecessor's result. */
  method Forward(self: Layer)
    requires self.layerConfiguration is SigmoidConfig
    requires self.inputLayer != null
    requires self.inputLayer.result.data.Length == self.result.data.Length
    modifies self.result.data
    ensures self.result.data[..] ==
      MapSeq(Configuration(self).sigmoid, old(self.inputLayer.result.data[..]))
    ensures forall i :: 0 <= i < self.result.data.Length ==>
      self.result.data[i] == Configuration(self).sigmoid(old(self.inputLayer.result.data[i]))
  {
    var layer := Configuration(self);
    var xIn := self.inputLayer.result;
    var xOut := self.result;

    Elementwise(layer.sigmoid, xIn, xOut);
  }

  /**
   * The scratch tensor of the backward pass: two-dimensional, sharing the
   * input's shape array and data type, with room for as many elements as
   * the input holds. It lives only for the duration of one backward pass.
   */
  method NewScratch(xIn: Tensor) returns (temp: Tensor)
    ensures fresh(temp) && fresh(temp.data)
    ensures temp.dim == 2 && temp.shape == xIn.shape && temp.dtype == xIn.dtype
    ensures temp.data.Length == xIn.data.Length
  {
    var tempData := new real[xIn.data.Length];
    temp := new Tensor(2, xIn.shape, tempData, xIn.dtype);
  }

  /**
   * Backward pass: delta_in := delta_out ∘ sigmoid'(x_in), computed as
   * sigmoid into a scratch tensor, the derivative kernel applied to the
   * scratch tensor in place, then the product into this layer's deltas.
   * The layer's own result is not used and not written.
   */
  method Backward(self: Layer)
    requires self.layerConfiguration is SigmoidConfig
    requires self.inputLayer != null && self.outputLayer != null
    requires self.inputLayer.result.data.Length == self.deltas.data.Length
    requires self.outputLayer.deltas.data.Length == self.deltas.data.Length
    modifies self.deltas.data
    ensures self.deltas.data[..] ==
      MultiplySeq(MapSeq(Configuration(self).dSigmoid,
                         MapSeq(Configuration(self).sigmoid, old(self.inputLayer.result.data[..]))),
                  old(self.outputLayer.deltas.data[..]))
  {
    var layer := Configuration(self);
    var deltaIn := self.deltas;
    var deltaOut := self.outputLayer.deltas;
    var xIn := self.inputLayer.result;

    var temp := NewScratch(xIn);

    Elementwise(layer.sigmoid, xIn, temp);
    Elementwise(layer.dSigmoid, temp, temp);
    Multiply(temp, deltaOut, deltaIn);
  }

  /** Element i of the backward result: the derivative rule applied to sigmoid(x_in[i]), times the upstream gradient. */
  lemma {:induction false} BackwardElement(sigmoid: real -> real, dSigmoid: real -> real, xIn: seq<real>, deltaOut: seq<real>, i: nat)
    requires |xIn| == |deltaOut| && i < |xIn|
    ensures MultiplySeq(MapSeq(dSigmoid, MapSeq(sigmoid, xIn)), deltaOut)[i]
            == dSigmoid(sigmoid(xIn[i])) * deltaOut[i]
  {
    MapSeqThen(sigmoid, dSigmoid, xIn, i);
    MultiplySeqAt(MapSeq(dSigmoid, MapSeq(sigmoid, xIn)), deltaOut, i);
  }

  /** Shape inference: nothing to do, the result shape is shared with the predecessor. */
  method CalcResultShape(self: Layer)
    ensures unchanged(self, self.result, self.deltas)
    ensures old(SharesInputShape(self)) ==> SharesInputShape(self)
  {
  }
}
