/**
 * Colour breakpoints and the bracket search that both the browser
 * (getColorAtProgress in colorInterpolation.js) and the Python service
 * (get_color_at_progress in titration_engine.py) run over them.
 */
module Breakpoints {
  import opened Base

  /** One authored anchor of a colour curve: at this progress the solution shows this colour. */
  datatype Breakpoint = Breakpoint(progress: real, color: string)

  /** The loop test of both services: curr.progress <= p <= next.progress. */
  predicate Brackets(ts: seq<Breakpoint>, j: nat, p: real)
    requires j + 1 < |ts|
  {
    ts[j].progress <= p <= ts[j + 1].progress
  }

  /**
   * The early-return loop of both lookups, resumed at index i: the first
   * pair (ts[k], ts[k+1]) with k >= i that brackets p, or None when the loop
   * falls through. Both callers have already returned when p is at or below
   * the first progress, so ts[i].progress < p on entry, and a pair that does
   * not bracket p passes that fact on to the next index. Hence the pair found
   * has a strictly smaller left progress (the division that follows is never
   * by zero), and the loop only falls through when p lies above the last
   * progress, which the callers have also already handled. No ordering of the
   * list is needed for either fact.
   */
  function FirstBracket(ts: seq<Breakpoint>, p: real, i: nat): (r: Option<nat>)
    requires i < |ts| && ts[i].progress < p
    ensures r.Some? ==> i <= r.value && r.value + 1 < |ts|
    ensures r.Some? ==> ts[r.value].progress < p <= ts[r.value + 1].progress
    ensures r.Some? ==> forall j :: i <= j < r.value ==> !Brackets(ts, j, p)
    ensures r.None? ==> ts[|ts| - 1].progress < p
    ensures r.None? ==> forall j :: i <= j < |ts| - 1 ==> !Brackets(ts, j, p)
    decreases |ts| - i
  {
    if i + 1 == |ts| then None
    else if ts[i].progress <= p <= ts[i + 1].progress then Some(i)
    else FirstBracket(ts, p, i + 1)
  }

  /** The interpolation parameter of the bracketing pair k: it lies in (0, 1]. */
  function BracketFraction(ts: seq<Breakpoint>, p: real, k: nat): (t: real)
    requires k + 1 < |ts| && ts[k].progress < p <= ts[k + 1].progress
    ensures 0.0 < t <= 1.0
  {
    var lo, hi := ts[k].progress, ts[k + 1].progress;
    assert (p - lo) / (hi - lo) <= 1.0 by {
      assert p - lo <= hi - lo;
    }
    (p - lo) / (hi - lo)
  }

  /** A list whose progress values never decrease. */
  predicate SortedByProgress(ts: seq<Breakpoint>)
  {
    forall i, j :: 0 <= i < j < |ts| ==> ts[i].progress <= ts[j].progress
  }
}
