/**
 * Tensors: a typed, shaped view over a numeric buffer (aitensor_t).
 *
 * A tensor does not own its element storage: `shape` and `data` are
 * references, and several tensors may share one shape array (an elementwise
 * layer aliases its result shape to its predecessor's). Element values are
 * modelled as `real`; the numeric representation is the opaque data-type
 * descriptor `dtype`.
 */
module Tensors {

  /** Data-type descriptor (aimath_dtype_t): opaque, compared for equality only. */
  datatype DType = DType(name: string)

  class Tensor {
    var dim: nat
    var shape: array<nat>
    var data: array<real>
    var dtype: DType

    constructor (dim: nat, shape: array<nat>, data: array<real>, dtype: DType)
      ensures this.dim == dim && this.shape == shape && this.data == data && this.dtype == dtype
    {
      this.dim := dim;
      this.shape := shape;
      this.data := data;
      this.dtype := dtype;
    }

    /** A tensor whose shape and storage are not bound yet. */
    constructor Unbound()
      ensures dim == 0 && shape.Length == 0 && data.Length == 0 && dtype == DType("")
      ensures fresh(shape) && fresh(data)
    {
      dim := 0;
      shape := new nat[0];
      data := new real[0];
      dtype := DType("");
    }
  }
}
