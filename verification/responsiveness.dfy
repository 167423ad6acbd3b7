/** The responsiveness sweep: resize the page through four fixed viewports in
    order and record whether the document overflows horizontally. */
module Responsiveness {

  datatype Viewport = Viewport(name: string, width: nat, height: nat)

  /** The device profiles, in the order they are tried. */
  const Viewports: seq<Viewport> := [
    Viewport("Desktop Large", 1920, 1080),
    Viewport("Desktop Standard", 1280, 800),
    Viewport("Tablet", 768, 1024),
    Viewport("Phone", 375, 667)
  ]

  /** How measuring one viewport goes in the browser: resizing or the
      in-page evaluation either throws or yields the overflow flag. */
  datatype StepOutcome = Measured(overflow: bool) | Threw

  /** One entry of the response. */
  datatype ResponsivenessResult = ResponsivenessResult(viewport: string, overflow: bool)

  /** `rs` is what the sweep over `vps` yields when step `i` behaves as
      `steps[i]`: one entry per viewport in order, stopping exactly at the
      first step that throws. */
  predicate SweepPrefix(vps: seq<Viewport>, steps: seq<StepOutcome>, rs: seq<ResponsivenessResult>)
    requires |steps| == |vps|
  {
    && |rs| <= |vps|
    && (forall i :: 0 <= i < |rs| ==>
          steps[i].Measured? && rs[i] == ResponsivenessResult(vps[i].name, steps[i].overflow))
    && (|rs| < |vps| ==> steps[|rs|].Threw?)
  }

  /** The sweep as a fold over the viewports: a thrown step is swallowed and
      ends the sweep, keeping what was already collected. */
  function Sweep(vps: seq<Viewport>, steps: seq<StepOutcome>): (rs: seq<ResponsivenessResult>)
    requires |steps| == |vps|
    ensures SweepPrefix(vps, steps, rs)
  {
    if |vps| == 0 then []
    else match steps[0]
      case Threw => []
      case Measured(o) => [ResponsivenessResult(vps[0].name, o)] + Sweep(vps[1..], steps[1..])
  }

  /** Only one result list fits the prefix description. */
  lemma SweepUnique(vps: seq<Viewport>, steps: seq<StepOutcome>, rs: seq<ResponsivenessResult>)
    requires |steps| == |vps|
    requires SweepPrefix(vps, steps, rs)
    ensures rs == Sweep(vps, steps)
  {
  }

  /** The handler's loop over the fixed viewports, with the try around the
      whole loop: the first throw leaves the loop and is swallowed. */
  method RunSweep(steps: seq<StepOutcome>) returns (rs: seq<ResponsivenessResult>)
    requires |steps| == |Viewports|
    ensures rs == Sweep(Viewports, steps)
  {
    rs := [];
    var i := 0;
    while i < |Viewports|
      invariant 0 <= i <= |Viewports|
      invariant |rs| == i
      invariant forall k :: 0 <= k < i ==>
        steps[k].Measured? && rs[k] == ResponsivenessResult(Viewports[k].name, steps[k].overflow)
    {
      match steps[i]
      case Threw =>
        SweepUnique(Viewports, steps, rs);
        return;
      case Measured(o) =>
        rs := rs + [ResponsivenessResult(Viewports[i].name, o)];
      i := i + 1;
    }
    SweepUnique(Viewports, steps, rs);
  }

  /** The viewport names of a result list. */
  function Names(rs: seq<ResponsivenessResult>): (ns: seq<string>)
    ensures |ns| == |rs|
    ensures forall i :: 0 <= i < |rs| ==> ns[i] == rs[i].viewport
  {
    seq(|rs|, i requires 0 <= i < |rs| => rs[i].viewport)
  }

  function ViewportNames(): seq<string> {
    ["Desktop Large", "Desktop Standard", "Tablet", "Phone"]
  }

  predicate NoDuplicates(ns: seq<string>) {
    forall i, j :: 0 <= i < j < |ns| ==> ns[i] != ns[j]
  }

  /** The reported viewports are always a prefix of the fixed order, with no
      viewport reported twice. */
  lemma SweepIsOrderedPrefix(steps: seq<StepOutcome>)
    requires |steps| == |Viewports|
    ensures Names(Sweep(Viewports, steps)) <= ViewportNames()
    ensures NoDuplicates(Names(Sweep(Viewports, steps)))
  {
    var rs := Sweep(Viewports, steps);
    var ns := Names(rs);
    assert forall i :: 0 <= i < |ns| ==> ns[i] == ViewportNames()[i];
    assert ns == ViewportNames()[..|ns|];
  }

  /** All four viewports are reported exactly when no step throws; otherwise
      the list ends just before the first throwing step. */
  lemma SweepCompleteIff(steps: seq<StepOutcome>)
    requires |steps| == |Viewports|
    ensures |Sweep(Viewports, steps)| == |Viewports| <==> forall i :: 0 <= i < |steps| ==> steps[i].Measured?
    ensures forall k :: 0 <= k < |steps| && steps[k].Threw? && (forall i :: 0 <= i < k ==> steps[i].Measured?)
                        ==> |Sweep(Viewports, steps)| == k
  {
  }
}
