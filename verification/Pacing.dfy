/** Polling: how regularly something was looked at. */
module Pacing {
  /** The first look came at most `first` after `start`, and each of the others at most
      `gap` after the one before it. */
  ghost predicate Paced(ts: seq<int>, start: int, first: nat, gap: nat) {
    && ts != [] && ts[0] <= start + first
    && forall i, j :: 0 <= i < |ts| && j == i + 1 < |ts| ==> ts[j] - ts[i] <= gap
  }

  lemma PacedMore(ts: seq<int>, start: int, first: nat, gap: nat, t: int)
    requires ts == [] ==> t <= start + first
    requires ts != [] ==> Paced(ts, start, first, gap) && t - ts[|ts| - 1] <= gap
    ensures Paced(ts + [t], start, first, gap)
  {
  }

  /** Whatever holds from some moment on, and for long enough, is seen: no stretch of
      the wait is longer than a gap without a look. */
  lemma {:induction false} SeenInTime(ts: seq<int>, start: int, first: nat, gap: nat, t: int)
    requires Paced(ts, start, first, gap) && start <= t <= ts[|ts| - 1] && first <= gap
    ensures exists i :: 0 <= i < |ts| && t <= ts[i] <= t + gap
  {
    if |ts| > 1 {
      var init := ts[..|ts| - 1];
      if t <= init[|init| - 1] {
        SeenInTime(init, start, first, gap, t);
        var i :| 0 <= i < |init| && t <= init[i] <= t + gap;
        assert ts[i] == init[i];
      } else {
        assert ts[|ts| - 1] - ts[|ts| - 2] <= gap;
      }
    } else {
      assert t <= ts[0] <= t + gap;
    }
  }
}
