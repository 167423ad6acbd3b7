/** The few JavaScript value rules the handlers lean on. */
module Js {
  import opened Wrappers

  /** JavaScript truthiness of an optional string field: absent (`undefined`)
      and the empty string are both falsy. */
  predicate Truthy(s: Option<string>)
    ensures Truthy(s) <==> |s.GetOr("")| > 0
    ensures Truthy(s) ==> s.Some?
  {
    s.Some? && s.value != ""
  }

  /** The defaulting idiom `x || ""` on an optional string. Because the empty
      string is itself falsy, the idiom returns a present value unchanged and
      maps only an absent one to "". */
  function OrEmpty(s: Option<string>): (r: string)
    ensures r == s.GetOr("")
    ensures Truthy(s) ==> r == s.value
    ensures !Truthy(s) ==> r == ""
  {
    if Truthy(s) then s.value else ""
  }

  /** `Math.round` on a finite number: round to the nearest integer, with
      halves going towards positive infinity. */
  function Round(x: real): (n: int)
    ensures x - 0.5 < n as real <= x + 0.5
    ensures (x + 0.5).Floor == n
  {
    (x + 0.5).Floor
  }

  /** Round is the only integer within half a unit, ties going up. */
  lemma RoundUnique(x: real, n: int)
    requires x - 0.5 < n as real <= x + 0.5
    ensures Round(x) == n
  {
  }
}
