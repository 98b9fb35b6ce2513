/**
 * The navbar autohide hook: a scroll listener that remembers the last
 * scroll position and hides the bar on a large downward move below the top
 * 80 pixels, shows it on any other large move, and ignores small moves.
 */
module Autohide {
  import opened Common

  const DEFAULT_THRESHOLD: int := 8
  /** Below this scroll position a large move always shows the bar. */
  const HIDE_FLOOR: int := 80

  /** The ref `lastScroll` and the state `hidden`. */
  datatype AutohideState = AutohideState(lastScroll: int, hidden: bool)

  /** The state on mount. */
  function Initial(): (s: AutohideState)
    ensures s.lastScroll == 0 && !s.hidden
  {
    AutohideState(0, false)
  }

  /** Whether a move from `last` to `current` exceeds the threshold. */
  predicate IsLargeMove(last: int, current: int, threshold: int) {
    Abs(current - last) > threshold
  }

  /** One `onScroll` with the window at `current`. */
  function Step(s: AutohideState, current: int, threshold: int): (r: AutohideState)
    ensures r.lastScroll == current
    ensures !IsLargeMove(s.lastScroll, current, threshold) ==> r.hidden == s.hidden
    ensures IsLargeMove(s.lastScroll, current, threshold) ==>
      (r.hidden <==> current > s.lastScroll && current > HIDE_FLOOR)
  {
    var delta := current - s.lastScroll;
    var hidden := if Abs(delta) > threshold then delta > 0 && current > HIDE_FLOOR else s.hidden;
    AutohideState(current, hidden)
  }

  /** A large upward move always shows the bar. */
  lemma UpwardMoveShows(s: AutohideState, current: int, threshold: int)
    requires current < s.lastScroll && IsLargeMove(s.lastScroll, current, threshold)
    ensures !Step(s, current, threshold).hidden
  {
  }

  /** Any large move that ends within the top 80 pixels shows the bar. */
  lemma LargeMoveNearTopShows(s: AutohideState, current: int, threshold: int)
    requires current <= HIDE_FLOOR && IsLargeMove(s.lastScroll, current, threshold)
    ensures !Step(s, current, threshold).hidden
  {
  }

  /** The state after a sequence of scroll events. */
  function Run(s: AutohideState, trace: seq<int>, threshold: int): AutohideState
    decreases |trace|
  {
    if trace == [] then s else Run(Step(s, trace[0], threshold), trace[1..], threshold)
  }

  /** After any non-empty sequence of events, `lastScroll` is the last position seen. */
  lemma {:induction false} RunRemembersLast(s: AutohideState, trace: seq<int>, threshold: int)
    requires trace != []
    ensures Run(s, trace, threshold).lastScroll == trace[|trace| - 1]
    decreases |trace|
  {
    if |trace| > 1 {
      RunRemembersLast(Step(s, trace[0], threshold), trace[1..], threshold);
    }
  }

  /** The position before event `k` of a trace that starts from `s`. */
  function Before(s: AutohideState, trace: seq<int>, k: int): int
    requires 0 <= k < |trace|
  {
    if k == 0 then s.lastScroll else trace[k - 1]
  }

  /** Every step of the trace is within the threshold. */
  predicate AllSmall(s: AutohideState, trace: seq<int>, threshold: int) {
    forall k :: 0 <= k < |trace| ==> !IsLargeMove(Before(s, trace, k), trace[k], threshold)
  }

  /** Moves that never exceed the threshold never toggle the bar, however far they add up to. */
  lemma {:induction false} SmallStepsNeverToggle(s: AutohideState, trace: seq<int>, threshold: int)
    requires AllSmall(s, trace, threshold)
    ensures Run(s, trace, threshold).hidden == s.hidden
    decreases |trace|
  {
    if trace != [] {
      var next := Step(s, trace[0], threshold);
      assert !IsLargeMove(Before(s, trace, 0), trace[0], threshold);
      forall k | 0 <= k < |trace[1..]|
        ensures !IsLargeMove(Before(next, trace[1..], k), trace[1..][k], threshold)
      {
        assert !IsLargeMove(Before(s, trace, k + 1), trace[k + 1], threshold);
      }
      SmallStepsNeverToggle(next, trace[1..], threshold);
    }
  }

  /**
   * A shown bar only becomes hidden through some large downward move that
   * ends below the top 80 pixels.
   */
  lemma {:induction false} HidingNeedsLargeDownwardMove(s: AutohideState, trace: seq<int>, threshold: int)
    requires !s.hidden
    ensures Run(s, trace, threshold).hidden ==>
      exists k :: 0 <= k < |trace| && trace[k] > HIDE_FLOOR
        && trace[k] > Before(s, trace, k) && IsLargeMove(Before(s, trace, k), trace[k], threshold)
    decreases |trace|
  {
    if trace != [] {
      var next := Step(s, trace[0], threshold);
      if next.hidden {
        assert trace[0] > HIDE_FLOOR && trace[0] > Before(s, trace, 0);
      } else {
        HidingNeedsLargeDownwardMove(next, trace[1..], threshold);
        if Run(s, trace, threshold).hidden {
          var k :| 0 <= k < |trace[1..]| && trace[1..][k] > HIDE_FLOOR
            && trace[1..][k] > Before(next, trace[1..], k)
            && IsLargeMove(Before(next, trace[1..], k), trace[1..][k], threshold);
          assert Before(next, trace[1..], k) == Before(s, trace, k + 1);
        }
      }
    }
  }

  /** The hook instance: its threshold, the `lastScroll` ref and the `hidden` state. */
  class AutohideHook {
    const threshold: int
    var lastScroll: int
    var hidden: bool

    function State(): AutohideState
      reads this
    {
      AutohideState(lastScroll, hidden)
    }

    /** `useAutohide()` with the default threshold. */
    constructor ()
      ensures threshold == DEFAULT_THRESHOLD && State() == Initial()
    {
      threshold := DEFAULT_THRESHOLD;
      lastScroll := 0;
      hidden := false;
    }

    /** `useAutohide(threshold)`. */
    constructor WithThreshold(threshold: int)
      ensures this.threshold == threshold && State() == Initial()
    {
      this.threshold := threshold;
      lastScroll := 0;
      hidden := false;
    }

    /** The scroll listener, with the window at `current`. */
    method OnScroll(current: int)
      modifies this
      ensures State() == Step(old(State()), current, threshold)
      ensures lastScroll == current
    {
      var delta := current - lastScroll;
      if Abs(delta) > threshold {
        hidden := delta > 0 && current > HIDE_FLOOR;
      }
      lastScroll := current;
    }
  }
}
