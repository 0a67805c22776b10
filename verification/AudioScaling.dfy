/**
  AdaptiveParameterController (protocol/client/audio.cpp): the controller that scales
  the target length of the audio device queue up after risky moments and down after
  long safe stretches. Times are in seconds, lengths in frames, both real numbers.
 */
module AudioScaling {

  const TARGET_INITIAL: real := 8.0
  const OVERFLOW_INITIAL: real := 20.0
  const SCALE_MIN: real := 1.0
  const SCALE_MAX: real := 4.0
  const SCALE_UP_STEP: real := 1.5
  const RISKY_THRESHOLD: real := 2.0
  const RISKY_COUNT: int := 3
  const RISKY_EXPIRE: real := 30.0
  const SAFE_THRESHOLD: real := 4.0
  const SAFE_DURATION: real := 45.0
  const COOL_DOWN_STARTUP: real := 4.0
  const COOL_DOWN: real := 2.0
  const INF: real := 99999.0

  datatype Control = Control(
    coolDown: real, lastRisky: real, riskyCount: int,
    minLen: real, minSince: real, scale: real)

  function Reset(time: real, scale: real): Control {
    Control(COOL_DOWN, time, 0, INF, time, scale)
  }

  function Started(time: real): Control {
    Control(COOL_DOWN_STARTUP, time, 0, INF, time, 1.0)
  }

  /** The running minimum, started afresh when it falls below the safe threshold. */
  function Observe(c: Control, len: real, time: real): Control {
    var m := if len < c.minLen then len else c.minLen;
    if m < SAFE_THRESHOLD then c.(minLen := INF, minSince := time) else c.(minLen := m)
  }

  /** The minimum has been safe for long enough. */
  predicate GoesDown(c: Control, time: real) {
    c.minLen > SAFE_THRESHOLD && c.minLen < INF && time - c.minSince > SAFE_DURATION
  }

  /** The spare part of the target is cut off, down to the smallest scale. */
  function DownTo(c: Control): real {
    var target := TARGET_INITIAL * c.scale;
    var spare := (if c.minLen > target then target else c.minLen) - SAFE_THRESHOLD;
    var scale := (target - spare) / TARGET_INITIAL;
    if scale < SCALE_MIN then SCALE_MIN else scale
  }

  function ScaleDown(c: Control, len: real, time: real): Control {
    var c1 := Observe(c, len, time);
    if GoesDown(c1, time) then Reset(time, DownTo(c1)) else c1
  }

  predicate Expired(c: Control, time: real) {
    time - c.lastRisky > RISKY_EXPIRE
  }

  predicate Risky(c: Control, len: real, time: real) {
    !Expired(c, time) && len < RISKY_THRESHOLD && time - c.lastRisky > c.coolDown
  }

  predicate GoesUp(c: Control, len: real, time: real) {
    Risky(c, len, time) && c.riskyCount + 1 >= RISKY_COUNT
  }

  function UpTo(c: Control): real {
    if c.scale * SCALE_UP_STEP > SCALE_MAX then SCALE_MAX else c.scale * SCALE_UP_STEP
  }

  function ScaleUp(c: Control, len: real, time: real): Control {
    if Expired(c, time) then c.(riskyCount := 0, lastRisky := time)
    else if !Risky(c, len, time) then c
    else if GoesUp(c, len, time) then Reset(time, UpTo(c))
    else c.(riskyCount := c.riskyCount + 1, lastRisky := time, coolDown := COOL_DOWN)
  }

  /** handle_scaling */
  function Scaled(c: Control, len: real, time: real): Control {
    ScaleUp(ScaleDown(c, len, time), len, time)
  }

  class AdaptiveParameterController {
    var currentCoolDown: real
    var lastRiskyTime: real
    var riskyCnt: int
    var deviceQueueLenMin: real
    var deviceQueueLenMinSince: real
    var currentScaleFactor: real

    ghost function View(): Control
      reads this
    {
      Control(currentCoolDown, lastRiskyTime, riskyCnt, deviceQueueLenMin, deviceQueueLenMinSince, currentScaleFactor)
    }

    constructor (time: real)
      ensures View() == Started(time)
    {
      currentScaleFactor := 1.0;
      riskyCnt := 0;
      lastRiskyTime := time;
      deviceQueueLenMinSince := time;
      deviceQueueLenMin := INF;
      currentCoolDown := COOL_DOWN_STARTUP;
    }

    method ResetForNextRound(time: real)
      modifies this
      ensures View() == Reset(time, currentScaleFactor) && currentScaleFactor == old(currentScaleFactor)
    {
      riskyCnt := 0;
      lastRiskyTime := time;
      deviceQueueLenMinSince := time;
      deviceQueueLenMin := INF;
      currentCoolDown := COOL_DOWN;
    }

    method HandleScalingDown(len: real, time: real)
      modifies this
      ensures View() == ScaleDown(old(View()), len, time)
    {
      if len < deviceQueueLenMin {
        deviceQueueLenMin := len;
      }
      if deviceQueueLenMin < SAFE_THRESHOLD {
        deviceQueueLenMinSince := time;
        deviceQueueLenMin := INF;
      }
      if deviceQueueLenMin > SAFE_THRESHOLD && deviceQueueLenMin < INF
        && time - deviceQueueLenMinSince > SAFE_DURATION {
        var target := TARGET_INITIAL * currentScaleFactor;
        if deviceQueueLenMin > target {
          deviceQueueLenMin := target;
        }
        var spare := deviceQueueLenMin - SAFE_THRESHOLD;
        var scale := (target - spare) / TARGET_INITIAL;
        if scale < SCALE_MIN {
          scale := SCALE_MIN;
        }
        currentScaleFactor := scale;
        ResetForNextRound(time);
      }
    }

    method HandleScalingUp(len: real, time: real)
      modifies this
      ensures View() == ScaleUp(old(View()), len, time)
    {
      if time - lastRiskyTime > RISKY_EXPIRE {
        riskyCnt := 0;
        lastRiskyTime := time;
        return;
      }
      if len < RISKY_THRESHOLD && time - lastRiskyTime > currentCoolDown {
        riskyCnt := riskyCnt + 1;
        lastRiskyTime := time;
        currentCoolDown := COOL_DOWN;
        if riskyCnt >= RISKY_COUNT {
          var scale := currentScaleFactor * SCALE_UP_STEP;
          if scale > SCALE_MAX {
            scale := SCALE_MAX;
          }
          currentScaleFactor := scale;
          ResetForNextRound(time);
        }
      }
    }

    method HandleScaling(len: real, time: real)
      modifies this
      ensures View() == Scaled(old(View()), len, time)
    {
      HandleScalingDown(len, time);
      HandleScalingUp(len, time);
    }
  }

  // ------------------------------------------------------------------------ runs

  datatype Sample = Sample(time: real, len: real)

  /** The controller after the given observations. */
  function After(start: real, run: seq<Sample>): Control {
    if run == [] then Started(start)
    else Scaled(After(start, run[..|run| - 1]), run[|run| - 1].len, run[|run| - 1].time)
  }

  /** Observation `k` triggers a scale-down. */
  predicate DownAt(start: real, run: seq<Sample>, k: nat)
    requires k < |run|
  {
    GoesDown(Observe(After(start, run[..k]), run[k].len, run[k].time), run[k].time)
  }

  /** Observation `k` triggers a scale-up. */
  predicate UpAt(start: real, run: seq<Sample>, k: nat)
    requires k < |run|
  {
    GoesUp(ScaleDown(After(start, run[..k]), run[k].len, run[k].time), run[k].len, run[k].time)
  }

  predicate ChangesAt(start: real, run: seq<Sample>, k: nat)
    requires k < |run|
  {
    DownAt(start, run, k) || UpAt(start, run, k)
  }

  /** The clock never goes back. */
  ghost predicate Monotone(start: real, run: seq<Sample>) {
    && (|run| > 0 ==> start <= run[0].time)
    && forall j, k :: 0 <= j <= k < |run| ==> run[j].time <= run[k].time
  }

  function TimeAt(start: real, run: seq<Sample>, k: int): real
    requires k < |run|
  {
    if k < 0 then start else run[k].time
  }

  lemma ScaleInRange(c: Control, len: real, time: real)
    requires SCALE_MIN <= c.scale <= SCALE_MAX
    ensures SCALE_MIN <= Scaled(c, len, time).scale <= SCALE_MAX
  {}

  /** The scale factor stays between 1 and 4 on every run. */
  lemma {:induction false} ScaleAlwaysInRange(start: real, run: seq<Sample>)
    ensures SCALE_MIN <= After(start, run).scale <= SCALE_MAX
    decreases |run|
  {
    if run != [] {
      ScaleAlwaysInRange(start, run[..|run| - 1]);
      hide Scaled;
      ScaleInRange(After(start, run[..|run| - 1]), run[|run| - 1].len, run[|run| - 1].time);
    }
  }

  /**
    Each observation moves the scale in one direction at most: strictly down on a
    scale-down unless it is at the minimum, strictly up on a scale-up unless it is
    at the maximum, and not at all otherwise.
   */
  lemma {:induction false} ScaleMoves(start: real, run: seq<Sample>, k: nat)
    requires k < |run|
    ensures !(DownAt(start, run, k) && UpAt(start, run, k))
    ensures var was := After(start, run[..k]).scale;
            var now := After(start, run[..k + 1]).scale;
            && (DownAt(start, run, k) ==> now < was || now == was == SCALE_MIN)
            && (UpAt(start, run, k) ==> now > was || now == was == SCALE_MAX)
            && (!ChangesAt(start, run, k) ==> now == was)
  {
    assert run[..k + 1][..k] == run[..k];
    ScaleAlwaysInRange(start, run[..k]);
  }

  // ------------------------------------------------------------- between scale-ups

  /** What holds ever after a change of scale at time `r`. */
  ghost predicate ChangedAtOrAfter(c: Control, r: real) {
    && c.coolDown == COOL_DOWN
    && 0 <= c.riskyCount <= 2
    && c.lastRisky >= r
    && (c.riskyCount >= 1 ==> c.lastRisky > r + 2.0 * c.riskyCount as real)
  }

  lemma ChangeStarts(c: Control, len: real, time: real)
    requires GoesDown(Observe(c, len, time), time) || GoesUp(ScaleDown(c, len, time), len, time)
    ensures ChangedAtOrAfter(Scaled(c, len, time), time)
  {}

  lemma ChangePersists(c: Control, len: real, time: real, r: real)
    requires ChangedAtOrAfter(c, r) && r <= time
    ensures ChangedAtOrAfter(ScaleDown(c, len, time), r)
    ensures ChangedAtOrAfter(Scaled(c, len, time), r)
    ensures GoesUp(ScaleDown(c, len, time), len, time) ==> time - r > 6.0
  {}

  lemma {:induction false} AfterChange(start: real, run: seq<Sample>, i: nat, j: nat)
    requires Monotone(start, run) && i < j <= |run| && ChangesAt(start, run, i)
    ensures ChangedAtOrAfter(After(start, run[..j]), run[i].time)
    decreases j
  {
    hide Scaled, GoesUp, GoesDown, ChangedAtOrAfter;
    var n := j - 1;
    assert run[..j][..n] == run[..n];
    if i == n {
      ChangeStarts(After(start, run[..n]), run[n].len, run[n].time);
    } else {
      AfterChange(start, run, i, n);
      ChangePersists(After(start, run[..n]), run[n].len, run[n].time, run[i].time);
    }
  }

  /** A scale-up comes more than six seconds after every earlier change of scale. */
  lemma {:induction false} ScaleUpsSpaced(start: real, run: seq<Sample>, i: nat, j: nat)
    requires Monotone(start, run) && i < j < |run|
    requires ChangesAt(start, run, i) && UpAt(start, run, j)
    ensures run[j].time - run[i].time > 6.0
  {
    AfterChange(start, run, i, j);
    ChangePersists(After(start, run[..j]), run[j].len, run[j].time, run[i].time);
  }

  /** What holds ever after the start at time `t`. */
  ghost predicate StartedAt(c: Control, t: real) {
    && (c.coolDown == COOL_DOWN_STARTUP || c.coolDown == COOL_DOWN)
    && 0 <= c.riskyCount <= 2
    && c.minSince >= t
    && (c.coolDown == COOL_DOWN_STARTUP ==> c.riskyCount == 0 && c.lastRisky >= t)
    && (c.coolDown == COOL_DOWN ==> c.lastRisky > t + 4.0)
    && (c.riskyCount == 2 ==> c.lastRisky > t + 6.0)
  }

  lemma StartPersists(c: Control, len: real, time: real, t: real)
    requires StartedAt(c, t) && t <= time
    ensures StartedAt(Scaled(c, len, time), t)
    ensures GoesUp(ScaleDown(c, len, time), len, time) ==> time - t > 8.0
  {}

  lemma {:induction false} AfterStart(start: real, run: seq<Sample>, j: nat)
    requires Monotone(start, run) && j <= |run|
    ensures StartedAt(After(start, run[..j]), start)
    decreases j
  {
    if j > 0 {
      var n := j - 1;
      assert run[..j][..n] == run[..n];
      AfterStart(start, run, n);
      hide Scaled, StartedAt;
      assert run[0].time <= run[n].time;
      StartPersists(After(start, run[..n]), run[n].len, run[n].time, start);
    }
  }

  /** The first scale-up comes more than eight seconds after the start. */
  lemma {:induction false} FirstScaleUpLate(start: real, run: seq<Sample>, j: nat)
    requires Monotone(start, run) && j < |run| && UpAt(start, run, j)
    ensures run[j].time - start > 8.0
  {
    AfterStart(start, run, j);
    assert run[0].time <= run[j].time;
    StartPersists(After(start, run[..j]), run[j].len, run[j].time, start);
  }

  // ------------------------------------------------------------------ scale-downs

  /** Observation `k` restarts the safe stretch: a change of scale, or a queue below the threshold. */
  predicate Restarts(start: real, run: seq<Sample>, k: nat)
    requires k < |run|
  {
    ChangesAt(start, run, k) || run[k].len < SAFE_THRESHOLD
  }

  /** The safe stretch that ends before observation `j` began with observation `k` (-1: at the start). */
  ghost predicate StretchBefore(start: real, run: seq<Sample>, k: int, j: nat)
    requires j <= |run|
  {
    && -1 <= k < j
    && (k >= 0 ==> Restarts(start, run, k))
    && forall m: nat :: k < m < j ==> !Restarts(start, run, m)
  }

  /** The running minimum `c` keeps over the observations after `k`. */
  ghost predicate Measures(c: Control, run: seq<Sample>, k: int)
    requires -1 <= k
  {
    && SAFE_THRESHOLD <= c.minLen <= INF
    && (forall m :: k < m < |run| ==> c.minLen <= run[m].len)
    && (c.minLen < INF ==> exists m :: k < m < |run| && run[m].len == c.minLen)
  }

  lemma MeasureRestarts(c: Control, len: real, time: real)
    requires SAFE_THRESHOLD <= c.minLen
    requires GoesDown(Observe(c, len, time), time) || GoesUp(ScaleDown(c, len, time), len, time) || len < SAFE_THRESHOLD
    ensures Scaled(c, len, time).minLen == INF && Scaled(c, len, time).minSince == time
  {}

  lemma MeasureContinues(c: Control, len: real, time: real)
    requires SAFE_THRESHOLD <= c.minLen && len >= SAFE_THRESHOLD
    requires !GoesDown(Observe(c, len, time), time) && !GoesUp(ScaleDown(c, len, time), len, time)
    ensures Scaled(c, len, time).minLen == if len < c.minLen then len else c.minLen
    ensures Scaled(c, len, time).minSince == c.minSince
  {}

  lemma MinimumAtLeast(start: real, run: seq<Sample>)
    ensures SAFE_THRESHOLD <= After(start, run).minLen <= INF
    decreases |run|
  {
    if run != [] {
      MinimumAtLeast(start, run[..|run| - 1]);
    }
  }

  lemma MeasuresMore(c: Control, d: Control, run: seq<Sample>, x: Sample, k: int)
    requires -1 <= k < |run| && Measures(c, run, k)
    requires x.len >= SAFE_THRESHOLD && d.minLen == if x.len < c.minLen then x.len else c.minLen
    ensures Measures(d, run + [x], k)
  {
    var more := run + [x];
    assert more[|run|] == x;
    if d.minLen < INF && !(x.len < c.minLen) {
      var m :| k < m < |run| && run[m].len == c.minLen;
      assert more[m].len == d.minLen;
    }
  }

  lemma {:induction false} Measured(start: real, run: seq<Sample>, k: int, j: nat)
    requires j <= |run| && StretchBefore(start, run, k, j)
    ensures Measures(After(start, run[..j]), run[..j], k)
    ensures After(start, run[..j]).minSince == TimeAt(start, run, k)
    decreases j
  {
    if j > 0 {
      var n := j - 1;
      var c := After(start, run[..n]);
      assert run[..j][..n] == run[..n] && run[..j] == run[..n] + [run[n]];
      MinimumAtLeast(start, run[..n]);
      hide Scaled, GoesUp, GoesDown, Observe, ScaleDown;
      if k == n {
        MeasureRestarts(c, run[n].len, run[n].time);
      } else {
        assert !Restarts(start, run, n);
        Measured(start, run, k, n);
        MeasureContinues(c, run[n].len, run[n].time);
        hide Measures;
        MeasuresMore(c, After(start, run[..j]), run[..n], run[n], k);
      }
    }
  }

  /** The observations after `k`, up to and including `j`, were all above the threshold. */
  ghost predicate AllSafe(run: seq<Sample>, k: int, j: nat)
    requires -1 <= k && j < |run|
  {
    forall m :: k < m <= j ==> run[m].len > SAFE_THRESHOLD
  }

  ghost predicate SomeFinite(run: seq<Sample>, k: int, j: nat)
    requires -1 <= k && j < |run|
  {
    exists m :: k < m <= j && run[m].len < INF
  }

  /**
    A scale-down happens exactly when the current stretch is older than 45 s, every queue
    length observed in it, the present one included, was above four frames, and one of
    them was below the controller's infinity.
   */
  lemma {:induction false} ScaleDownExactly(start: real, run: seq<Sample>, k: int, j: nat)
    requires j < |run| && StretchBefore(start, run, k, j)
    ensures DownAt(start, run, j) <==>
      run[j].time - TimeAt(start, run, k) > SAFE_DURATION && AllSafe(run, k, j) && SomeFinite(run, k, j)
  {
    Measured(start, run, k, j);
    var c := After(start, run[..j]);
    assert forall m :: k < m < j ==> run[..j][m] == run[m];
    if c.minLen < INF {
      var m :| k < m < j && run[..j][m].len == c.minLen;
      assert run[m].len == c.minLen;
    }
  }

  /** Every point of a run has a current stretch, so the previous lemma always applies. */
  lemma {:induction false} StretchExists(start: real, run: seq<Sample>, j: nat) returns (k: int)
    requires j <= |run|
    ensures StretchBefore(start, run, k, j)
  {
    hide Restarts;
    k := j - 1;
    while k >= 0 && !Restarts(start, run, k)
      invariant -1 <= k < j
      invariant forall m: nat :: k < m < j ==> !Restarts(start, run, m)
    {
      k := k - 1;
    }
  }
}
