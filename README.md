# Leaky ReLU and Sigmoid layers of AIfES, modelled in Dafny

This project models two elementwise activation layers of the AIfES
embedded neural-network engine: Leaky ReLU and Sigmoid. Both layers are
data-type independent. Each one embeds the base layer contract `ailayer_t`
and plugs in caller-supplied math kernels.

The model covers four things:

- **Construction.** The construction function links a layer after its
  predecessor in a doubly linked chain. It aliases the result and deltas
  shapes to the predecessor's shape array by reference. It takes the data
  type from the layer's own configuration, installs the forward, backward
  and shape-inference slots, and zeroes the memory slots and the
  trainable-parameter count.
- **Forward pass.** Each layer applies its kernel to the predecessor's
  result and writes only its own result.
- **Backward pass.** Leaky ReLU writes the derivative straight into its own
  deltas and then multiplies them in place by the successor's deltas.
  Sigmoid computes sigmoid into a fresh scratch tensor, applies the
  derivative kernel to that tensor in place, and multiplies the scratch
  tensor by the successor's deltas into its own deltas.
- **Kernels.** The documented Leaky ReLU value and derivative kernels and the
  elementwise product. Each is proved correct even when its output tensor is
  also one of its inputs.

Files:

- `tensor.dfy` (`Tensors`): the tensor view `aitensor_t`. It holds `dim`, a
  `shape` array (shared by reference, so identity is stated with `==`), a
  `data` array of `real`, and an opaque `dtype`.
- `kernels.dfy` (`Kernels`): the scalar rules, their lifting to sequences,
  and the kernel methods.
- `layer.dfy` (`Layers`): the base layer `ailayer_t`. It holds the links,
  the embedded `result` and `deltas` tensors, the configuration
  back-reference, the slots and the parameter count.
- `leaky_relu.dfy` (`LeakyReluLayer`) and `sigmoid.dfy` (`SigmoidLayer`):
  the two concrete layers. Each has its configuration class, construction
  function, forward, backward and shape inference.
- `scenarios.dfy` (`Scenarios`): client code that builds small chains and
  runs both passes on concrete inputs.

How the C constructs are modelled:

- A function-pointer slot is a `Slot` value naming the installed function,
  or `Null`.
- The `void *layer_configuration` back-reference is an `object?` field. A
  layer function recovers its configuration with a type test and a cast
  (`Configuration`), as the C code casts the pointer.
- Both constructors set `deltas.dim` to 2 whatever the input's `dim` is
  (`ailayer_leaky_relu.c:51`, `ailayer_sigmoid.c:53`). So the deltas share
  the result's shape array and data type, but not necessarily its `dim`.
- Element values are `real`. The leak coefficient `alpha` is a `real`.
- The sigmoid and sigmoid-derivative kernels are arbitrary scalar functions
  held in the Sigmoid configuration, because their formulas are not part
  of this model. `src/basic/base/ailayer/ailayer_sigmoid.h` and the `aimath`
  kernels are not part of this model.

Where the header text and the code differ, the model follows the code:

- The header of `ailayer_leaky_relu_backward` lists `leaky_relu` among the
  kernels it uses (`ailayer_leaky_relu.h:171-174`). The code calls only
  `d_leaky_relu` and `multiply`.
- The code computes `delta_in ∘ delta_out`. The header documents
  `δ_out ∘ LeakyReLU'(x_in)`. `Kernels.MultiplySeqCommutes` shows the two
  are equal.

## Model

| member | source | states |
|---|---|---|
| `Kernels.LeakyRelu` | src/basic/base/ailayer/ailayer_leaky_relu.h:71-84 | The Leaky ReLU value of an element is the derivative kernel's slope times the element: alpha·x below 0, x from 0 upward. |
| `Kernels.DLeakyRelu` | src/basic/base/ailayer/ailayer_leaky_relu.h:89-94 | The derivative rule takes only the two slopes: alpha for every element below 0 and 1 for every element from 0 upward; `LeakyReluSlope` ties it to the value rule. |
| `Kernels.LeakyReluSlope` | src/basic/base/ailayer/ailayer_leaky_relu.h:86-99 | For two points on the same side of 0, the derivative kernel's value is the exact slope of the value kernel between them, so it really is LeakyReLU'. |
| `Kernels.LeakyReluAtZero` | src/basic/base/ailayer/ailayer_leaky_relu.h:89-94 | At exactly 0 the tie goes to the non-leaky branch: the value is 0 and the derivative is 1, not alpha. |
| `Kernels.MapSeq` | src/basic/base/ailayer/ailayer_leaky_relu.h:81-84 | An elementwise kernel produces exactly as many elements as its input has. |
| `Kernels.MapSeqAt` | src/basic/base/ailayer/ailayer_leaky_relu.h:71-84 | Element i of an elementwise kernel's output is the scalar rule applied to element i of its input, for every i. |
| `Kernels.MapSeqThen` | src/basic/base/ailayer/ailayer_sigmoid.c:99-100 | Two elementwise kernels run one after the other give, at element i, the second rule applied to the first rule's value. |
| `Kernels.MultiplySeq` | src/basic/base/ailayer/ailayer_leaky_relu.h:101-108 | The elementwise product of two equally long tensors has that same length. |
| `Kernels.MultiplySeqAt` | src/basic/base/ailayer/ailayer_leaky_relu.h:101-108 | Element i of a ∘ b is a[i]·b[i]. |
| `Kernels.MultiplySeqCommutes` | src/basic/base/ailayer/ailayer_leaky_relu.c:85-87 | a ∘ b equals b ∘ a, so the code's `multiply(delta_in, delta_out, ...)` computes the documented δ_out ∘ LeakyReLU'(x_in). |
| `Kernels.Elementwise` | src/basic/base/ailayer/ailayer_sigmoid.c:76 | An elementwise kernel slot (sigmoid, d_sigmoid) writes f(x[i]) into every element of result, reading the old input values. It does so even when result is the input tensor, as in `d_sigmoid(&temp, &temp)`. It writes nothing but result's data. |
| `Kernels.Multiply` | src/basic/base/ailayer/ailayer_leaky_relu.h:101-108 | The multiply kernel writes a[i]·b[i] into every element of result from the old operand values. It stays correct when result is a or b. It writes nothing but result's data. |
| `Kernels.LeakyReluKernel` | src/basic/base/ailayer/ailayer_leaky_relu.h:71-84 | The Leaky ReLU kernel writes alpha·x[i] where x[i] < 0 and x[i] where x[i] >= 0, for every element. It writes only result. |
| `Kernels.DLeakyReluKernel` | src/basic/base/ailayer/ailayer_leaky_relu.h:86-99 | The derivative kernel writes alpha where x[i] < 0 and 1 where x[i] >= 0, for every element. It writes only result. |
| `LeakyReluLayer.LeakyReluConfig.constructor` | src/basic/base/ailayer/ailayer_leaky_relu.h:53-64 | The caller-populated layer state holds the data type and alpha, and embeds a fresh base layer whose two tensors are distinct. |
| `LeakyReluLayer.Construct` | src/basic/base/ailayer/ailayer_leaky_relu.c:39-66 | Returns `layer.base`, linked after the input layer in both directions, with the configuration pointing back at the layer, so that `Configuration` recovers exactly this state in forward and backward. The result shape is the input's shape array itself and the result dim is copied. The deltas shape is that same array and the deltas dim is 2. Both tensors take the layer's dtype. The Leaky ReLU forward, backward and shape slots are installed, the four memory slots are null, and the parameter count is 0. Nothing else changes. |
| `LeakyReluLayer.Forward` | src/basic/base/ailayer/ailayer_leaky_relu.c:68-76 | The result becomes LeakyReLU(x_in) elementwise with the layer's alpha, where x_in is the predecessor's result. Only this layer's result data is written. |
| `LeakyReluLayer.Backward` | src/basic/base/ailayer/ailayer_leaky_relu.c:78-90 | The deltas become δ_out ∘ LeakyReLU'(x_in), computed by writing the derivative into the deltas and then multiplying in place. Only this layer's deltas data is written, so x_in and δ_out stay unchanged. |
| `LeakyReluLayer.BackwardElement` | src/basic/base/ailayer/ailayer_leaky_relu.h:155-178 | Element i of the backward result is δ_out[i]·alpha where x_in[i] < 0 and δ_out[i]·1 where x_in[i] >= 0. |
| `LeakyReluLayer.CalcResultShape` | src/basic/base/ailayer/ailayer_leaky_relu.c:92-100 | Shape inference changes nothing, so the shape aliasing established by construction still holds after any number of calls. |
| `SigmoidLayer.SigmoidConfig.constructor` | src/basic/base/ailayer/ailayer_sigmoid.c:72-76 | The Sigmoid layer state holds the data type and the sigmoid and d_sigmoid kernels that forward and backward call, and embeds a fresh base layer whose two tensors are distinct. |
| `SigmoidLayer.Construct` | src/basic/base/ailayer/ailayer_sigmoid.c:40-68 | Returns `layer.base`, linked after the input layer in both directions, with the configuration pointing back at the layer, so that `Configuration` recovers exactly this state in forward and backward. The result shares the input's shape array and copies its dim. The deltas share that same array and have dim 2. Both tensors take the layer's dtype. The Sigmoid slots are installed, the memory slots are null, and the parameter count is 0. |
| `SigmoidLayer.Forward` | src/basic/base/ailayer/ailayer_sigmoid.c:70-78 | The result becomes sigmoid(x_in[i]) at every element. Only this layer's result data is written. |
| `SigmoidLayer.NewScratch` | src/basic/base/ailayer/ailayer_sigmoid.c:88-96 | The scratch tensor is new storage. It has dim 2, shares x_in's shape array, has x_in's dtype, and holds as many elements as x_in. |
| `SigmoidLayer.Backward` | src/basic/base/ailayer/ailayer_sigmoid.c:81-104 | The deltas become d_sigmoid(sigmoid(x_in)) ∘ δ_out. Besides the scratch tensor, only this layer's deltas data is written. This layer's result, x_in and δ_out are not touched. |
| `SigmoidLayer.BackwardElement` | src/basic/base/ailayer/ailayer_sigmoid.c:98-101 | Element i of the backward result is d_sigmoid applied to sigmoid(x_in[i]), times δ_out[i]. |
| `SigmoidLayer.CalcResultShape` | src/basic/base/ailayer/ailayer_sigmoid.c:106-114 | Shape inference changes nothing and may be repeated freely. |
| `Scenarios.LeakyReluChain` | src/basic/base/ailayer/ailayer_leaky_relu.c:43-52 | Building input → Leaky ReLU → Leaky ReLU gives a middle layer linked in both directions to its predecessor and to its successor. In this chain the last layer's result shape is the very same array as the input layer's, not a copy. |
| `Scenarios.LeakyReluScenario` | src/basic/base/ailayer/ailayer_leaky_relu.c:68-90 | With alpha 0.1 and input [-2, -0.5, 0, 3], forward gives [-0.2, -0.05, 0, 3]. With upstream gradient [1, 1, 1, 1], backward gives [0.1, 0.1, 1, 1]. |
| `Scenarios.SigmoidAtZero` | src/basic/base/ailayer/ailayer_sigmoid.c:70-104 | For a sigmoid kernel with sigmoid(0) = 0.5 and the derivative rule y·(1 − y), input [0] gives forward [0.5]. Upstream gradient [1] gives deltas [0.25]. |

## Left out

- Debug introspection is not modelled: the `print_specs` functions, the layer-type name strings, and everything under `AIDEBUG_PRINT_MODULE_SPECS`. It only prints and is compiled out by default. The layer type is a plain enumeration value.
- Float and fixed-point arithmetic is not modelled. Elements and alpha are `real`, and rounding is not modelled.
- The sigmoid and d_sigmoid formulas are not modelled. They live in aimath code outside this model, and sigmoid involves `exp`. The Sigmoid configuration holds them as arbitrary scalar functions.
- The byte-size helpers `aimath_sizeof_tensor_params` and `aimath_sizeof_tensor_data` are not modelled, and neither is the `+1` padding of the scratch parameter block. The scratch tensor's `tensor_params` is not modelled at all. Its data capacity is stated as an element count equal to the input's.
- `aimath_dtype_t` internals and `tensor_params` are not modelled. The dtype is an opaque value compared for equality.
- The memory-negotiation callbacks are modelled only as slots set to `Null`. The memory planner that calls them and binds storage is not modelled. The scenarios bind fresh arrays themselves.
- The network or training driver is not modelled. That includes dispatching through the forward and backward slots and sequencing passes across many layers. The slots record which function is installed.
- Kernels take a tensor's element count to be the length of its `data` array and require the arrays to be equally long. In C the count comes from the shape through aimath helpers that are not part of this model.
- The Leaky ReLU kernel function pointers are not fields of `LeakyReluConfig`. The layer functions use the documented kernel contracts directly. A null or non-conforming kernel, which is undefined behaviour in C, is not modelled.
- `SigmoidLayer.Backward`: the Sigmoid state's `multiply` kernel pointer is not a field of `SigmoidConfig`. The model uses the elementwise product a ∘ b in its place. That is the contract documented for the multiply kernel at src/basic/base/ailayer/ailayer_leaky_relu.h:101-108; the Sigmoid header, which would state its own contract, is not part of this model.
- Integer widths are not modelled. Shape extents (`uint16_t`) are `nat`, and `dim` and `trainable_params_count` are `nat`. Construction copies them, zeroes them, or sets `deltas.dim` to 2, so no wrap-around can occur.
- `Construct` (both layers) requires `TensorsDistinct()` on the new layer, meaning its `result` and `deltas` are different objects. In C this always holds, because the two are separate struct members.
- `LeakyReluLayer.Backward` requires its own deltas buffer to differ from the successor's. The derivative is written into this layer's deltas before the successor's deltas are read, so shared storage would give the wrong product. In C each layer owns its deltas. `SigmoidLayer.Backward` needs no such requirement, because it works in a scratch tensor.
