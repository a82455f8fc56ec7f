/**
 * The CUDA engine's optimizable-kernel wrapper for the ONNX NonZero operator:
 * it installs a type rule that forces output 0 to 64-bit integers, a dims
 * rule that defers to the shared NonZero reshape helper, loads the common
 * kernel parameters, and builds a parameterless NonZero kernel.
 */
module CudaNonZero {
  import opened Common
  import opened Ir

  /** The type-inference closures this wrapper can install. */
  datatype TypeRule = ForceInt64Output

  /** The dims-inference closures this wrapper can install. */
  datatype DimsRule = ReshapeNonZeroDims

  /** Options handed to Init and Finalize; only the common-parameter loader,
      which is not part of this model, looks inside them. */
  datatype OptKernelOptions = OptKernelOptions

  /** The executable unit: a NonZero kernel for one node, with no
      operator-specific parameter. */
  datatype KernelImpl = NonZeroKernel(nodeId: nat)

  /** Status and descriptors after a type rule ran. */
  datatype TypeRuleOutcome = TypeRuleOutcome(status: RetCode, io: IoInfo)

  /** The NonZero type rule as a function of the descriptors it sees and of
      the data type the optimizer passes in (which it ignores). */
  function NonZeroTypeRule(io: IoInfo, incoming: DataType): (r: TypeRuleOutcome)
    requires |io.outputs| >= 1
    ensures r.status == Success
    ensures r.io.inputs == io.inputs
    ensures |r.io.outputs| == |io.outputs|
    ensures r.io.outputs[0].dataType == Int64
    ensures r.io.outputs[0].dims == io.outputs[0].dims
    ensures forall i :: 1 <= i < |io.outputs| ==> r.io.outputs[i] == io.outputs[i]
  {
    var shape := io.outputs[0];
    TypeRuleOutcome(Success, io.(outputs := io.outputs[0 := shape.(dataType := Int64)]))
  }

  /** Whatever the input data types and the incoming type, the rule gives the
      same descriptors: output 0 becomes INT64 and nothing else differs. */
  lemma NonZeroTypeRuleIgnoresTypes(io: IoInfo, incoming1: DataType, incoming2: DataType, inputs2: seq<TensorShape>)
    requires |io.outputs| >= 1
    ensures NonZeroTypeRule(io, incoming1).io.outputs == NonZeroTypeRule(io.(inputs := inputs2), incoming2).io.outputs
  {
  }

  /** Running the rule on its own result changes nothing more. */
  lemma NonZeroTypeRuleIdempotent(io: IoInfo, incoming1: DataType, incoming2: DataType)
    requires |io.outputs| >= 1
    ensures NonZeroTypeRule(NonZeroTypeRule(io, incoming1).io, incoming2) == NonZeroTypeRule(io, incoming1)
  {
  }

  /** The descriptors after the optimizer has run the type rule once per
      entry of passes, each time with that entry as the incoming type. */
  function InferTypeRepeatedly(io: IoInfo, passes: seq<DataType>): (r: IoInfo)
    requires |io.outputs| >= 1
    ensures r.inputs == io.inputs
    ensures |r.outputs| == |io.outputs|
    ensures passes != [] ==> r.outputs[0].dataType == Int64
    decreases |passes|
  {
    if passes == [] then io
    else InferTypeRepeatedly(NonZeroTypeRule(io, passes[0]).io, passes[1..])
  }

  /** However many inference passes run, and with whatever incoming types,
      the descriptors are those of a single pass. */
  lemma {:induction false} RepeatedInferenceIsOnce(io: IoInfo, passes: seq<DataType>, incoming: DataType)
    requires |io.outputs| >= 1
    requires passes != []
    ensures InferTypeRepeatedly(io, passes) == NonZeroTypeRule(io, incoming).io
    decreases |passes|
  {
    var once := NonZeroTypeRule(io, passes[0]).io;
    if |passes| == 1 {
      assert passes[1..] == [];
      NonZeroTypeRuleIgnoresTypes(io, passes[0], incoming, io.inputs);
    } else {
      RepeatedInferenceIsOnce(once, passes[1..], incoming);
      NonZeroTypeRuleIdempotent(io, passes[0], incoming);
      NonZeroTypeRuleIgnoresTypes(io, passes[0], incoming, io.inputs);
    }
  }

  /** The optimizable kernel bound to one NonZero node. */
  class NonZeroOp {
    const nodeId: nat
    var inferTypeFunc: Option<TypeRule>
    var inferDimsFunc: Option<DimsRule>
    /** Whether the last load of the common kernel parameters succeeded. */
    var commonParamLoaded: bool

    constructor (nodeId: nat)
      ensures this.nodeId == nodeId
      ensures inferTypeFunc == None && inferDimsFunc == None && !commonParamLoaded
    {
      this.nodeId := nodeId;
      inferTypeFunc := None;
      inferDimsFunc := None;
      commonParamLoaded := false;
    }

    /** Installs both inference rules; it cannot fail. */
    method Init(options: OptKernelOptions) returns (rc: RetCode)
      modifies this
      ensures rc == Success
      ensures inferTypeFunc == Some(ForceInt64Output)
      ensures inferDimsFunc == Some(ReshapeNonZeroDims)
      ensures commonParamLoaded == old(commonParamLoaded)
    {
      inferTypeFunc := Some(ForceInt64Output);
      inferDimsFunc := Some(ReshapeNonZeroDims);
      return Success;
    }

    /** Runs the installed type rule on info: output 0's descriptor gets data
        type INT64 in place, everything else is left as it was. */
    method InferType(info: InputOutputInfo, incoming: DataType) returns (rc: RetCode)
      requires inferTypeFunc == Some(ForceInt64Output)
      requires |info.outputs| >= 1
      modifies info
      ensures rc == Success
      ensures info.inputs == old(info.inputs)
      ensures |info.outputs| == |old(info.outputs)|
      ensures info.outputs[0] == old(info.outputs[0]).(dataType := Int64)
      ensures forall i :: 1 <= i < |info.outputs| ==> info.outputs[i] == old(info.outputs[i])
      ensures info.View() == NonZeroTypeRule(old(info.View()), incoming).io
    {
      var shape := info.outputs[0];
      info.outputs := info.outputs[0 := shape.(dataType := Int64)];
      return Success;
    }

    /** Runs the installed dims rule on info. The reshape helper is passed in
        as reshapeNonZero: it maps the descriptors it is given to its status
        and the descriptors it leaves behind. */
    method InferDims(info: InputOutputInfo, reshapeNonZero: IoInfo -> (RetCode, IoInfo)) returns (rc: RetCode)
      requires inferDimsFunc == Some(ReshapeNonZeroDims)
      modifies info
      ensures rc == reshapeNonZero(old(info.View())).0
      ensures info.View() == reshapeNonZero(old(info.View())).1
    {
      var outcome := reshapeNonZero(info.View());
      info.inputs, info.outputs := outcome.1.inputs, outcome.1.outputs;
      return outcome.0;
    }

    /** Loads the common kernel parameters, whose loader reports
        commonParamStatus, and passes that status through. */
    method Finalize(options: OptKernelOptions, commonParamStatus: RetCode) returns (rc: RetCode)
      modifies this
      ensures rc == commonParamStatus
      ensures commonParamLoaded <==> rc == Success
      ensures inferTypeFunc == old(inferTypeFunc) && inferDimsFunc == old(inferDimsFunc)
    {
      var status := commonParamStatus;
      commonParamLoaded := status == Success;
      if status != Success {
        return status;
      }
      return Success;
    }

    /** Builds the parameterless NonZero kernel for this node; the op is
        left as it is. */
    method CreateKernelImpl() returns (k: KernelImpl)
      ensures k == NonZeroKernel(nodeId)
    {
      k := NonZeroKernel(nodeId);
    }
  }

  /** An index-producing op given 32-bit float inputs still yields a 64-bit
      integer output, and the lifecycle runs through to a kernel. */
  method Float32InputScenario(commonParamStatus: RetCode) returns (out: TensorShape, k: Option<KernelImpl>)
    ensures out == TensorShape(Int64, [4, 5])
    ensures k == (if commonParamStatus == Success then Some(NonZeroKernel(7)) else None)
  {
    var op := new NonZeroOp(7);
    var rc := op.Init(OptKernelOptions);
    var input := TensorShape(Float32, [2, 3]);
    var info := new InputOutputInfo([input], [TensorShape(Float32, [4, 5])]);
    rc := op.InferType(info, Float32);
    out := info.outputs[0];
    rc := op.Finalize(OptKernelOptions, commonParamStatus);
    if rc != Success {
      return out, None;
    }
    var kernel := op.CreateKernelImpl();
    return out, Some(kernel);
  }
}
