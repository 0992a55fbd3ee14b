/** Shared vocabulary of the signal engine: optional data, the uniform
    scorer output and the clamps every scorer ends with. */
module Common {

  /** Absence of a fetched snapshot ("no data") as a typed branch. */
  datatype Option<T> = None | Some(value: T)

  /** The remarks the gold cross-asset scorer collects, one per series seen. */
  datatype CrossNote =
    | DollarDownSupports | DollarUpHurts
    | YieldUpHurts | YieldDownSupports
    | VolDownRiskOn | VolUpRiskOff

  /** A rationale, reduced to what the model distinguishes: the no-data tag,
      some descriptive text, or the cross-asset notes (joined with "; "). */
  datatype Rationale = NoData | Detail | Notes(notes: seq<CrossNote>)

  /** The output of every scorer: a value and why. */
  datatype Score = Score(value: real, rationale: Rationale)

  /** `max(min(x, hi), lo)` on reals. */
  function ClampReal(x: real, lo: real, hi: real): (r: real)
    requires lo <= hi
    ensures lo <= r <= hi
    ensures lo <= x <= hi ==> r == x
    ensures x > hi ==> r == hi
    ensures x < lo ==> r == lo
  {
    var m := if x <= hi then x else hi;
    if m >= lo then m else lo
  }

  /** `max(min(x, hi), lo)` on integers. */
  function ClampInt(x: int, lo: int, hi: int): (r: int)
    requires lo <= hi
    ensures lo <= r <= hi
    ensures lo <= x <= hi ==> r == x
    ensures x > hi ==> r == hi
    ensures x < lo ==> r == lo
  {
    var m := if x <= hi then x else hi;
    if m >= lo then m else lo
  }
}
