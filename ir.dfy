/**
 * The parts of the graph representation that the modelled operators touch:
 * tensor descriptors, the input/output view handed to inference rules, and
 * opaque handles for graph nodes and topology.
 */
module Ir {
  import opened Common

  /** A tensor descriptor: element data type and dimension list. */
  datatype TensorShape = TensorShape(dataType: DataType, dims: seq<int64>)

  /** A value snapshot of the descriptors an inference rule sees. */
  datatype IoInfo = IoInfo(inputs: seq<TensorShape>, outputs: seq<TensorShape>)

  /** The mutable input/output view of one node during inference: rules
      update the output descriptors through it in place. */
  class InputOutputInfo {
    var inputs: seq<TensorShape>
    var outputs: seq<TensorShape>

    constructor (inputs: seq<TensorShape>, outputs: seq<TensorShape>)
      ensures this.inputs == inputs && this.outputs == outputs
    {
      this.inputs := inputs;
      this.outputs := outputs;
    }

    /** The descriptors as a value. */
    function View(): IoInfo
      reads this
    {
      IoInfo(inputs, outputs)
    }
  }

  /** A node of the graph, passed to the parser but never read. */
  class Node {
    constructor ()
    {
    }
  }

  /** The graph topology, passed to the parser but never read. */
  class GraphTopo {
    constructor ()
    {
    }
  }
}
