/**
 * The ONNX model parser's Unsqueeze attribute reader: it copies the `axes`
 * integer-list attribute into the parameter block and rejects the node when
 * that list is empty (Unsqueeze opsets 1 and 11 require the attribute).
 */
module OnnxUnsqueeze {
  import opened Common
  import Ir

  /** An ONNX node as already decoded from its protobuf form; its attributes
      are read only through the attribute-lookup helper. */
  datatype NodeProto = NodeProto(name: string, opType: string)

  /** The Unsqueeze parameter block. */
  class UnsqueezeParam {
    var axes: seq<int32>

    constructor ()
      ensures axes == []
    {
      axes := [];
    }
  }

  /** The status the parser reports for a given axes list. No range, sign or
      duplicate check applies to the axis values: every non-empty list is
      accepted, negative, repeated or extreme axes included. */
  function UnsqueezeStatus(axes: seq<int32>): (r: RetCode)
    ensures r == InvalidValue <==> axes == []
    ensures r == Success <==> axes != []
  {
    if |axes| == 0 then InvalidValue else Success
  }

  /** Reads `axes` from pbNode through getNodeAttrsByKey (the library's
      attribute lookup, passed in) into param. Node and topology are not
      touched. */
  method ParseUnsqueezeParam(pbNode: NodeProto, getNodeAttrsByKey: (NodeProto, string) -> seq<int32>,
                             param: UnsqueezeParam, node: Ir.Node?, topo: Ir.GraphTopo?)
    returns (rc: RetCode)
    modifies param
    ensures param.axes == getNodeAttrsByKey(pbNode, "axes")
    ensures rc == InvalidValue <==> param.axes == []
    ensures rc == Success || rc == InvalidValue
  {
    param.axes := getNodeAttrsByKey(pbNode, "axes");
    rc := UnsqueezeStatus(param.axes);
  }
}
