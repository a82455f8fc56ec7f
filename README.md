# NonZero CUDA wrapper and Unsqueeze attribute parser

A Dafny model of two small pieces of the operator layer of a multi-backend
neural-network inference compiler.

- `CudaNonZero` models the CUDA engine's optimizable-kernel wrapper for the
  ONNX `NonZero` operator. `NonZeroOp` is a class whose fields hold the
  installed type rule, the installed dims rule and whether the common kernel
  parameters were loaded. `Init` installs both rules. The type rule forces
  output 0 of the node to `INT64` whatever the input types and whatever data
  type the optimizer passes in, as the ONNX NonZero operator defines its
  output. It works in place on an `InputOutputInfo` object. The dims rule
  defers to the shared NonZero reshape helper. `Finalize` loads the common
  parameters and passes the loader's status through. `CreateKernelImpl`
  builds a parameterless NonZero kernel without changing the op.
  `NonZeroTypeRule` is the same type rule as a function on descriptor
  values. The lemmas about it cover type independence, idempotence and
  repeated inference passes.
- `OnnxUnsqueeze` models `ParseUnsqueezeParam`, which copies the `axes`
  integer-list attribute into an `UnsqueezeParam` object. It rejects the
  node with `InvalidValue` exactly when that list is empty. ONNX Unsqueeze
  opsets 1 and 11 make `axes` a required attribute.
- `Common` holds status codes, data types and fixed-width integers. `Ir`
  holds tensor descriptors (data type plus dims), the input/output view
  object and opaque node and topology handles.

Foreign helpers are parameters. The NonZero reshape helper is a function
from the descriptors to a status and new descriptors. The common-parameter
loader is represented by the status it returns. The attribute lookup is a
function from a decoded node and a key to an `int32` list.

## Model

| member | source | states |
|---|---|---|
| CudaNonZero.NonZeroTypeRule | src/ppl/nn/engines/cuda/optimizer/ops/onnx/non_zero_op.cc:30-34 | always `Success`; output 0 gets data type INT64 and keeps its dims; inputs and all other outputs are unchanged |
| CudaNonZero.NonZeroTypeRuleIgnoresTypes | src/ppl/nn/engines/cuda/optimizer/ops/onnx/non_zero_op.cc:30-32 | the resulting outputs do not depend on the incoming `type` argument nor on the input descriptors |
| CudaNonZero.NonZeroTypeRuleIdempotent | src/ppl/nn/engines/cuda/optimizer/ops/onnx/non_zero_op.cc:32 | applying the type rule to its own result gives the same outcome as applying it once |
| CudaNonZero.InferTypeRepeatedly | src/ppl/nn/engines/cuda/optimizer/ops/onnx/non_zero_op.cc:30-34 | any number of inference passes keep the inputs and the number of outputs; after at least one pass output 0 is INT64 |
| CudaNonZero.RepeatedInferenceIsOnce | src/ppl/nn/engines/cuda/optimizer/ops/onnx/non_zero_op.cc:30-34 | any non-empty series of passes, with any incoming types, yields exactly the descriptors of one pass |
| CudaNonZero.NonZeroOp.Init | src/ppl/nn/engines/cuda/optimizer/ops/onnx/non_zero_op.cc:29-41 | returns `Success`; both rules are installed afterwards; the common-parameter state is untouched |
| CudaNonZero.NonZeroOp.InferType | src/ppl/nn/engines/cuda/optimizer/ops/onnx/non_zero_op.cc:30-34 | in place on the info object: output 0's data type becomes INT64 and nothing else changes; the new state equals `NonZeroTypeRule` of the old one; returns `Success` |
| CudaNonZero.NonZeroOp.InferDims | src/ppl/nn/engines/cuda/optimizer/ops/onnx/non_zero_op.cc:36-38 | returns exactly the status of the reshape helper applied to the same descriptors, and leaves the descriptors that helper produced |
| CudaNonZero.NonZeroOp.Finalize | src/ppl/nn/engines/cuda/optimizer/ops/onnx/non_zero_op.cc:43-51 | returns the common-parameter loader's status, whether it failed or succeeded; the parameters count as loaded iff that status is `Success`; the installed rules are unchanged |
| CudaNonZero.NonZeroOp.CreateKernelImpl | src/ppl/nn/engines/cuda/optimizer/ops/onnx/non_zero_op.cc:53-55 | changes nothing (no frame) and returns the parameterless NonZero kernel for this op's node |
| CudaNonZero.Float32InputScenario | src/ppl/nn/engines/cuda/optimizer/ops/onnx/non_zero_op.cc:29-55 | Init, type inference on a FLOAT32 input, Finalize and kernel creation: the returned output descriptor is INT64 with its non-empty dims kept; the kernel is this node's NonZero kernel if the parameter load succeeds, and there is none otherwise |
| OnnxUnsqueeze.UnsqueezeStatus | src/ppl/nn/models/onnx/parsers/parse_unsqueeze_param.cc:28-32 | the status is `InvalidValue` iff the axes list is empty and `Success` iff it is non-empty, so no other code is possible and no range, sign or duplicate check applies to the axis values |
| OnnxUnsqueeze.ParseUnsqueezeParam | src/ppl/nn/models/onnx/parsers/parse_unsqueeze_param.cc:24-33 | `param.axes` is the `axes` attribute list, in order, whatever the outcome; the result is `InvalidValue` iff that list is empty, otherwise `Success`; only `param` is modified, so node and topology are unchanged |

## Left out

- The attribute lookup, the NonZero reshape helper, the common-parameter loader and the kernel factory have no bodies in the files modelled. They are parameters or fixed results here, and their own behaviour is not modelled.
- NonZeroOp.Finalize: what the common-parameter loader writes into the op is reduced to one flag that records whether its status was `Success`.
- NonZeroOp.CreateKernelImpl: the kernel factory's wiring of the common parameters and the dims rule into the kernel is not modelled; the kernel is identified by its node only.
- `CreateKernelImpl` may run before `Finalize`, since the code does not check the order. Callers are expected to call it only after a successful `Finalize`.
- NonZeroOp.InferType and NonZeroOp.InferDims are modelled only after `Init` has installed the rules; what happens when a rule was never installed is outside the files modelled.
- Tensor descriptors keep only the data type and the dims. The data format (layout) and padding that the library's tensor shape also carries are dropped, so the type rule's "nothing else changes" does not speak about them.
- Tensors are held by value inside `InputOutputInfo`, so aliasing between a tensor seen by two nodes is not modelled.
- The type rule needs at least one output, because the code reads output 0 without checking. A NonZero node always has exactly one output.
- Logging of errors and the formatting of status codes for log messages.
- Running `NonZeroKernel` on the GPU.
- Decoding the protobuf node; a node is taken as already decoded.
- The x86 softmax and tanh kernels: floating-point SIMD approximations under parallel loops.
- The graph-partitioning test: the partitioner and the test engines it uses are not part of this model.
- The status-code and data-type enumerations come from a common header that is not part of this model. The cases listed here are the usual ones, and only `Success` and `InvalidValue` are produced by the modelled code itself.
