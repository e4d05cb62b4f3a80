/**
 * The base layer contract (ailayer_t) that every concrete layer embeds:
 * links to its neighbours in a linear, doubly linked chain, its own result
 * and deltas tensors, a back-reference to the concrete layer's configuration,
 * the dispatch slots, the memory-negotiation slots and the count of
 * trainable parameters.
 *
 * The `result` and `deltas` tensors are embedded in the C struct, so here
 * they are constant references fixed when the layer is allocated; only their
 * fields change afterwards.
 */
module Layers {
  import opened Tensors

  /** Run-time type identity of a layer (aicore_layertype_t). */
  datatype LayerType = Untyped | LeakyReluType | SigmoidType

  /**
   * The contents of a function-pointer slot: null, or one of the layer
   * functions of this model.
   */
  datatype Slot =
    | Null
    | LeakyReluForward | LeakyReluBackward | LeakyReluCalcResultShape
    | SigmoidForward | SigmoidBackward | SigmoidCalcResultShape

  class Layer {
    var layerType: LayerType
    var inputLayer: Layer?
    var outputLayer: Layer?
    /** The concrete layer state that embeds this base (a `void *` in C). */
    var layerConfiguration: object?
    const result: Tensor
    const deltas: Tensor

    var forward: Slot
    var backward: Slot
    var calcResultShape: Slot
    var sizeofParamem: Slot
    var setParamem: Slot
    var sizeofTrainmem: Slot
    var setTrainmem: Slot

    var trainableParamsCount: nat

    /** Storage for a layer, before any construction function has run. */
    constructor ()
      ensures layerType == Untyped && inputLayer == null && outputLayer == null
      ensures layerConfiguration == null
      ensures fresh(result) && fresh(deltas) && TensorsDistinct()
      ensures forward == Null && backward == Null && calcResultShape == Null
      ensures sizeofParamem == Null && setParamem == Null
      ensures sizeofTrainmem == Null && setTrainmem == Null
      ensures trainableParamsCount == 0
    {
      layerType := Untyped;
      inputLayer := null;
      outputLayer := null;
      layerConfiguration := null;
      result := new Tensor.Unbound();
      deltas := new Tensor.Unbound();
      forward, backward, calcResultShape := Null, Null, Null;
      sizeofParamem, setParamem := Null, Null;
      sizeofTrainmem, setTrainmem := Null, Null;
      trainableParamsCount := 0;
    }

    /** The two embedded tensors are two distinct objects, as two struct members are. */
    predicate TensorsDistinct()
    {
      result != deltas
    }
  }

  /** `layer` is linked after `input` in both directions. */
  ghost predicate Linked(input: Layer, layer: Layer)
    reads input, layer
  {
    layer.inputLayer == input && input.outputLayer == layer
  }

  /**
   * The shape of an elementwise layer: its result shares the predecessor's
   * result shape array and its deltas share that same array.
   */
  ghost predicate SharesInputShape(layer: Layer)
    reads layer, layer.result, layer.deltas, layer.inputLayer
    reads if layer.inputLayer != null then {layer.inputLayer.result} else {}
  {
    && layer.inputLayer != null
    && layer.result.shape == layer.inputLayer.result.shape
    && layer.deltas.shape == layer.result.shape
  }
}
