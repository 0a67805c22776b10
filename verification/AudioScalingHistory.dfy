/**
  When, and by how much, the scaling controller of protocol/client/audio.cpp changes the
  scale, told by the observations alone.
 */
module AudioScalingHistory {
  import opened AudioScaling

  // ------------------------------------------------------------ amounts

  /** `m` is the smallest length observed after `k`, up to and including `j`. */
  ghost predicate SmallestLen(run: seq<Sample>, k: int, j: nat, m: real)
    requires -1 <= k && j < |run|
  {
    && (exists i :: k < i <= j && run[i].len == m)
    && (forall i :: k < i <= j ==> run[i].len >= m)
  }

  function Smaller(x: real, y: real): real {
    if x < y then x else y
  }

  function Larger(x: real, y: real): real {
    if x > y then x else y
  }

  /**
    A scale-down takes off the target what the smallest length of the stretch, which never
    counts for more than the target, has above four frames; eight frames are left at least.
   */
  lemma {:induction false} ScaleDownAmount(start: real, run: seq<Sample>, k: int, j: nat, m: real)
    requires j < |run| && StretchBefore(start, run, k, j) && DownAt(start, run, j)
    requires SmallestLen(run, k, j, m)
    ensures var target := 8.0 * After(start, run[..j]).scale;
            8.0 * After(start, run[..j + 1]).scale == Larger(8.0, target - Smaller(m, target) + 4.0)
  {
    Measured(start, run, k, j);
    assert run[..j + 1][..j] == run[..j];
    assert forall i :: k < i < j ==> run[..j][i] == run[i];
    var c := After(start, run[..j]);
    var d := Observe(c, run[j].len, run[j].time);
    if c.minLen < INF {
      var i :| k < i < j && run[..j][i].len == c.minLen;
      assert run[i].len == c.minLen;
    }
    assert d.minLen == m;
    OneScaleDown(c, run[j].len, run[j].time);
  }

  lemma OneScaleDown(c: Control, len: real, time: real)
    requires GoesDown(Observe(c, len, time), time)
    ensures var target := 8.0 * c.scale;
            8.0 * Scaled(c, len, time).scale ==
              Larger(8.0, target - Smaller(Observe(c, len, time).minLen, target) + 4.0)
  {}

  /** A scale-up multiplies the scale by one and a half, up to four. */
  lemma {:induction false} ScaleUpAmount(start: real, run: seq<Sample>, j: nat)
    requires j < |run| && UpAt(start, run, j)
    ensures After(start, run[..j + 1]).scale == Smaller(4.0, 1.5 * After(start, run[..j]).scale)
  {
    assert run[..j + 1][..j] == run[..j];
  }

  // ------------------------------------------------------------ risky moments

  /** Observation `k` counts as a risky moment. */
  predicate RiskyAt(start: real, run: seq<Sample>, k: nat)
    requires k < |run|
  {
    Risky(ScaleDown(After(start, run[..k]), run[k].len, run[k].time), run[k].len, run[k].time)
  }

  /** Observation `k` finds the last risky moment too long ago, and forgets the count. */
  predicate ExpiresAt(start: real, run: seq<Sample>, k: nat)
    requires k < |run|
  {
    Expired(ScaleDown(After(start, run[..k]), run[k].len, run[k].time), run[k].time)
  }

  /** The count of risky moments starts again. */
  predicate Recounts(start: real, run: seq<Sample>, k: nat)
    requires k < |run|
  {
    ChangesAt(start, run, k) || ExpiresAt(start, run, k)
  }

  predicate Marks(start: real, run: seq<Sample>, k: nat)
    requires k < |run|
  {
    Recounts(start, run, k) || RiskyAt(start, run, k)
  }

  /** The last mark before observation `j` (-1: the start). */
  ghost predicate LastMark(start: real, run: seq<Sample>, q: int, j: nat)
    requires j <= |run|
  {
    && -1 <= q < j
    && (q >= 0 ==> Marks(start, run, q))
    && forall i: nat :: q < i < j ==> !Marks(start, run, i)
  }

  /** The count before observation `j` began after `e` (-1: at the start). */
  ghost predicate LastRecount(start: real, run: seq<Sample>, e: int, j: nat)
    requires j <= |run|
  {
    && -1 <= e < j
    && (e >= 0 ==> Recounts(start, run, e))
    && forall i: nat :: e < i < j ==> !Recounts(start, run, i)
  }

  /** The risky moments after `e` and before `j`. */
  function RiskyBetween(start: real, run: seq<Sample>, e: int, j: nat): nat
    requires -1 <= e < j <= |run|
    decreases j
  {
    if j == e + 1 then 0
    else RiskyBetween(start, run, e, j - 1) + if RiskyAt(start, run, j - 1) then 1 else 0
  }

  /** There has been a risky moment or a change of scale before `j`, so the start-up cool-down is over. */
  ghost predicate WarmedUp(start: real, run: seq<Sample>, j: nat)
    requires j <= |run|
  {
    exists i: nat :: i < j && (ChangesAt(start, run, i) || RiskyAt(start, run, i))
  }

  lemma StepOfLastRisky(c: Control, len: real, time: real)
    ensures var d := ScaleDown(c, len, time);
            var marks := GoesDown(Observe(c, len, time), time) || GoesUp(d, len, time)
                         || Expired(d, time) || Risky(d, len, time);
            Scaled(c, len, time).lastRisky == if marks then time else c.lastRisky
  {}

  lemma {:induction false} LastRiskyIsMark(start: real, run: seq<Sample>, q: int, j: nat)
    requires j <= |run| && LastMark(start, run, q, j)
    ensures After(start, run[..j]).lastRisky == TimeAt(start, run, q)
    decreases j
  {
    if j > 0 {
      var n := j - 1;
      assert run[..j][..n] == run[..n];
      StepOfLastRisky(After(start, run[..n]), run[n].len, run[n].time);
      hide Scaled, GoesDown, GoesUp, Expired, Risky, Observe, ScaleDown;
      if q < n {
        assert !Marks(start, run, n);
        LastRiskyIsMark(start, run, q, n);
      }
    }
  }

  lemma StepOfCoolDown(c: Control, len: real, time: real)
    ensures var d := ScaleDown(c, len, time);
            var warms := GoesDown(Observe(c, len, time), time) || GoesUp(d, len, time) || Risky(d, len, time);
            Scaled(c, len, time).coolDown == if warms then COOL_DOWN else c.coolDown
  {}

  lemma {:induction false} CoolDownIs(start: real, run: seq<Sample>, j: nat)
    requires j <= |run|
    ensures After(start, run[..j]).coolDown == if WarmedUp(start, run, j) then 2.0 else 4.0
    decreases j
  {
    if j > 0 {
      var n := j - 1;
      assert run[..j][..n] == run[..n];
      StepOfCoolDown(After(start, run[..n]), run[n].len, run[n].time);
      CoolDownIs(start, run, n);
      hide Scaled, GoesDown, GoesUp, Risky, Observe, ScaleDown;
      WarmsUp(start, run, n);
    }
  }

  lemma WarmsUp(start: real, run: seq<Sample>, n: nat)
    requires n < |run|
    ensures WarmedUp(start, run, n + 1) <==>
              WarmedUp(start, run, n) || ChangesAt(start, run, n) || RiskyAt(start, run, n)
  {
    hide ChangesAt, RiskyAt;
  }

  lemma StepOfCount(c: Control, len: real, time: real)
    ensures var d := ScaleDown(c, len, time);
            var recounts := GoesDown(Observe(c, len, time), time) || GoesUp(d, len, time) || Expired(d, time);
            Scaled(c, len, time).riskyCount ==
              if recounts then 0 else c.riskyCount + if Risky(d, len, time) then 1 else 0
  {}

  lemma {:induction false} CountIsRisky(start: real, run: seq<Sample>, e: int, j: nat)
    requires j <= |run| && LastRecount(start, run, e, j)
    ensures After(start, run[..j]).riskyCount == RiskyBetween(start, run, e, j)
    decreases j
  {
    if j > 0 {
      var n := j - 1;
      assert run[..j][..n] == run[..n];
      StepOfCount(After(start, run[..n]), run[n].len, run[n].time);
      hide Scaled, GoesDown, GoesUp, Risky, Expired, Observe, ScaleDown;
      if e < n {
        assert !Recounts(start, run, n);
        CountIsRisky(start, run, e, n);
      }
    }
  }

  // ------------------------------------------------------------ theorems

  /**
    An observation is a risky moment exactly when the queue is below two frames, and the last
    mark is more than the cool-down ago (two seconds, but four until the first risky moment or
    change of scale) and at most thirty seconds.
   */
  lemma {:induction false} RiskyExactly(start: real, run: seq<Sample>, q: int, j: nat)
    requires j < |run| && LastMark(start, run, q, j)
    ensures var since := run[j].time - TimeAt(start, run, q);
            RiskyAt(start, run, j) <==>
              && run[j].len < 2.0
              && (if WarmedUp(start, run, j) then 2.0 else 4.0) < since <= 30.0
  {
    LastRiskyIsMark(start, run, q, j);
    CoolDownIs(start, run, j);
    hide WarmedUp, LastMark;
    MinimumAtLeast(start, run[..j]);
  }

  /** The count expires exactly when the last mark is more than thirty seconds ago, unless the scale goes down. */
  lemma {:induction false} ExpiresExactly(start: real, run: seq<Sample>, q: int, j: nat)
    requires j < |run| && LastMark(start, run, q, j)
    ensures ExpiresAt(start, run, j) <==>
              !DownAt(start, run, j) && run[j].time - TimeAt(start, run, q) > 30.0
  {
    LastRiskyIsMark(start, run, q, j);
    hide LastMark;
  }

  /**
    The scale goes up exactly at the third risky moment since the scale last changed or the
    count last expired.
   */
  lemma {:induction false} ScaleUpExactly(start: real, run: seq<Sample>, e: int, j: nat)
    requires j < |run| && LastRecount(start, run, e, j)
    ensures UpAt(start, run, j) <==> RiskyAt(start, run, j) && RiskyBetween(start, run, e, j) >= 2
  {
    CountIsRisky(start, run, e, j);
    hide LastRecount, RiskyBetween;
    MinimumAtLeast(start, run[..j]);
  }
}
