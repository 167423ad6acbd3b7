/** Normalisation of the accessibility engine's violations into the shape the
    service returns: every field copied with `x || ""` defaulting, order kept. */
module Violations {
  import opened Wrappers
  import opened Js

  /** One offending element as the engine reports it. */
  datatype RawNode = RawNode(impact: Option<string>, html: Option<string>, failureSummary: Option<string>)

  /** One violated rule as the engine reports it. */
  datatype RawViolation = RawViolation(
    id: Option<string>, description: Option<string>, help: Option<string>, nodes: seq<RawNode>)

  /** One offending element in the response. */
  datatype ViolationNode = ViolationNode(impact: string, html: string, failureSummary: string)

  /** One violated rule in the response. */
  datatype ResultViolation = ResultViolation(
    id: string, description: string, help: string, nodes: seq<ViolationNode>)

  function NormaliseNode(n: RawNode): (r: ViolationNode)
    ensures r.impact == n.impact.GetOr("")
    ensures r.html == n.html.GetOr("")
    ensures r.failureSummary == n.failureSummary.GetOr("")
  {
    ViolationNode(OrEmpty(n.impact), OrEmpty(n.html), OrEmpty(n.failureSummary))
  }

  function NormaliseViolation(v: RawViolation): (r: ResultViolation)
    ensures r.id == v.id.GetOr("")
    ensures r.description == v.description.GetOr("")
    ensures r.help == v.help.GetOr("")
    ensures |r.nodes| == |v.nodes|
    ensures forall j :: 0 <= j < |v.nodes| ==> r.nodes[j] == NormaliseNode(v.nodes[j])
  {
    ResultViolation(
      OrEmpty(v.id), OrEmpty(v.description), OrEmpty(v.help),
      seq(|v.nodes|, j requires 0 <= j < |v.nodes| => NormaliseNode(v.nodes[j])))
  }

  /** The whole violation list, normalised one by one in order. */
  function Normalise(raw: seq<RawViolation>): (out: seq<ResultViolation>)
    ensures |out| == |raw|
    ensures forall i :: 0 <= i < |raw| ==> out[i] == NormaliseViolation(raw[i])
  {
    seq(|raw|, i requires 0 <= i < |raw| => NormaliseViolation(raw[i]))
  }

  /** The handler's loops: for each violation build the result with an empty
      node list, push every normalised node, then push the result. */
  method NormaliseAll(raw: seq<RawViolation>) returns (out: seq<ResultViolation>)
    ensures |out| == |raw|
    ensures forall i :: 0 <= i < |raw| ==> out[i] == NormaliseViolation(raw[i])
  {
    out := [];
    var i := 0;
    while i < |raw|
      invariant 0 <= i <= |raw|
      invariant |out| == i
      invariant forall k :: 0 <= k < i ==> out[k] == NormaliseViolation(raw[k])
    {
      var v := raw[i];
      var nodes: seq<ViolationNode> := [];
      var j := 0;
      while j < |v.nodes|
        invariant 0 <= j <= |v.nodes|
        invariant |nodes| == j
        invariant forall k :: 0 <= k < j ==> nodes[k] == NormaliseNode(v.nodes[k])
      {
        nodes := nodes + [NormaliseNode(v.nodes[j])];
        j := j + 1;
      }
      var rv := ResultViolation(OrEmpty(v.id), OrEmpty(v.description), OrEmpty(v.help), nodes);
      assert rv == NormaliseViolation(v);
      out := out + [rv];
      i := i + 1;
    }
  }

  /** A response node read back as engine output, every field present. */
  function LiftNode(n: ViolationNode): RawNode {
    RawNode(Some(n.impact), Some(n.html), Some(n.failureSummary))
  }

  /** A response violation read back as engine output, every field present. */
  function LiftViolation(r: ResultViolation): RawViolation {
    RawViolation(Some(r.id), Some(r.description), Some(r.help),
                 seq(|r.nodes|, j requires 0 <= j < |r.nodes| => LiftNode(r.nodes[j])))
  }

  /** Present values are copied unchanged: normalising a fully present
      violation gives back exactly its fields and nodes. */
  lemma NormaliseLiftRoundTrip(r: ResultViolation)
    ensures NormaliseViolation(LiftViolation(r)) == r
  {
    var n := NormaliseViolation(LiftViolation(r));
    assert |n.nodes| == |r.nodes|;
    forall j | 0 <= j < |r.nodes|
      ensures n.nodes[j] == r.nodes[j]
    {
      assert n.nodes[j] == NormaliseNode(LiftNode(r.nodes[j]));
    }
  }

  /** Normalising a second time changes nothing. */
  lemma NormaliseIdempotent(v: RawViolation)
    ensures NormaliseViolation(LiftViolation(NormaliseViolation(v))) == NormaliseViolation(v)
  {
    NormaliseLiftRoundTrip(NormaliseViolation(v));
  }

  /** Every absent field, and only an absent or empty one, becomes "". */
  lemma AbsentBecomesEmpty(n: RawNode)
    ensures NormaliseNode(n).impact == "" <==> !Truthy(n.impact)
    ensures NormaliseNode(n).html == "" <==> !Truthy(n.html)
    ensures NormaliseNode(n).failureSummary == "" <==> !Truthy(n.failureSummary)
  {
  }
}
