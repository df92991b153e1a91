/** Round counting of the contour tracer (touchscan.py:126-141) as a pure
    state machine. Each accepted hit after the first is classified as near
    the anchor (within 1.5 probe radii of the first estimate) or not; the
    machine keeps the completed rounds and whether the trace is currently
    inside the start area. */
module Closure {

  datatype Progress = Progress(round: nat, inStartArea: bool)

  /** Before any hit of the trace loop: no round, inside the start area. */
  const Initial := Progress(0, true)

  /** The effect of one hit: a far hit leaves the start area, a near hit
      re-enters it, and a re-entry completes a round. */
  function Observe(p: Progress, near: bool): (q: Progress)
    ensures q.inStartArea == near
    ensures q.round == p.round || q.round == p.round + 1
    ensures q.round == p.round + 1 <==> near && !p.inStartArea
  {
    if near then
      if !p.inStartArea then Progress(p.round + 1, true) else p
    else
      Progress(p.round, false)
  }

  /** The progress after a sequence of classified hits, oldest first. */
  function After(nears: seq<bool>): Progress
  {
    if nears == [] then Initial
    else Observe(After(nears[..|nears| - 1]), nears[|nears| - 1])
  }

  lemma AfterAppend(nears: seq<bool>, near: bool)
    ensures After(nears + [near]) == Observe(After(nears), near)
  {
  }

  /** The number of hits that lay outside the start area. */
  function Departures(nears: seq<bool>): nat
  {
    if nears == [] then 0
    else Departures(nears[..|nears| - 1]) + (if nears[|nears| - 1] then 0 else 1)
  }

  /** Every completed round was preceded by its own departure from the
      start area, and being outside it is a departure not yet matched. */
  lemma {:induction false} RoundsNeedDepartures(nears: seq<bool>)
    ensures var p := After(nears);
      p.round + (if p.inStartArea then 0 else 1) <= Departures(nears)
  {
    if nears != [] {
      RoundsNeedDepartures(nears[..|nears| - 1]);
    }
  }

  /** A round takes at least two hits: one away from the anchor, one back. */
  lemma {:induction false} RoundsNeedTwoHits(nears: seq<bool>)
    ensures var p := After(nears);
      2 * p.round + (if p.inStartArea then 0 else 1) <= |nears|
  {
    if nears != [] {
      RoundsNeedTwoHits(nears[..|nears| - 1]);
    }
  }

  /** A trace that has counted a round has had a hit outside the start area. */
  lemma {:induction false} NoRoundWithoutDeparture(nears: seq<bool>)
    ensures After(nears).round > 0 ==> exists i :: 0 <= i < |nears| && !nears[i]
  {
    if nears != [] {
      var init := nears[..|nears| - 1];
      NoRoundWithoutDeparture(init);
      if After(init).round > 0 {
        var i :| 0 <= i < |init| && !init[i];
        assert !nears[i];
      }
    }
  }

  /** Hits that all stay near the anchor never count a round. */
  lemma {:induction false} StayingNearCountsNothing(nears: seq<bool>)
    requires forall i :: 0 <= i < |nears| ==> nears[i]
    ensures After(nears) == Initial
  {
    if nears != [] {
      StayingNearCountsNothing(nears[..|nears| - 1]);
    }
  }

  /** The number of re-entries: verdicts that are near while the one before
      them was far. */
  function Returns(nears: seq<bool>): nat
  {
    if |nears| < 2 then 0
    else Returns(nears[..|nears| - 1]) + (if nears[|nears| - 1] && !nears[|nears| - 2] then 1 else 0)
  }

  /** The counter's exact value: one round per near verdict that follows a
      far one, and the flag is the latest verdict (true before any). */
  lemma {:induction false} AfterIsReturns(nears: seq<bool>)
    ensures After(nears).round == Returns(nears)
    ensures After(nears).inStartArea == (nears == [] || nears[|nears| - 1])
  {
    if nears != [] {
      var init := nears[..|nears| - 1];
      AfterIsReturns(init);
      if |nears| >= 2 {
        assert init[|init| - 1] == nears[|nears| - 2];
      }
    }
  }

  /** Leaving the start area and coming back completes exactly one round. */
  lemma LeaveAndReturn(nears: seq<bool>)
    ensures After(nears + [false, true]) == Progress(After(nears).round + 1, true)
  {
    AfterAppend(nears, false);
    AfterAppend(nears + [false], true);
    assert nears + [false] + [true] == nears + [false, true];
  }
}
