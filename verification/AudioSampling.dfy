/**
  QueueLenController (protocol/client/audio.cpp): decides, from samples of the total
  audio queue length, when to duplicate or drop a frame. The newest sample is first.
 */
module AudioSampling {
  import Scaling = AudioScaling

  const SAMPLE_PERIOD: real := 20.0 / 1000.0
  const SAMPLES_MAX: nat := 50
  const SAMPLES_MIN: nat := 8
  const ACCEPTABLE_DELTA: real := 1.2
  const STRENGTH_FACTOR: real := 3.0 * ACCEPTABLE_DELTA

  datatype Command = Noop | Drop | Dup

  datatype Control = Control(samples: seq<real>, lastTime: real, overflowing: bool, command: Command)

  // ------------------------------------------------------------ the sampling decision

  function Sum(s: seq<real>): real {
    if s == [] then 0.0 else Sum(s[..|s| - 1]) + s[|s| - 1]
  }

  function Mean(samples: seq<real>, n: nat): real
    requires 0 < n <= |samples|
  {
    Sum(samples[..n]) / n as real
  }

  function Distance(x: real, y: real): real {
    if x < y then y - x else x - y
  }

  /** How many samples are needed to act on a mean this far from the target. */
  function Needed(distance: real): real {
    if distance > STRENGTH_FACTOR then SAMPLES_MAX as real / (distance / STRENGTH_FACTOR) else SAMPLES_MAX as real
  }

  predicate Meets(samples: seq<real>, target: real, n: nat)
    requires 0 < n <= |samples|
  {
    n as real >= Needed(Distance(Mean(samples, n), target))
  }

  function Verdict(mean: real, target: real): Command {
    if mean < target - ACCEPTABLE_DELTA then Dup
    else if mean > target + ACCEPTABLE_DELTA then Drop
    else Noop
  }

  /** `n` is the smallest window of newest samples that meets the needed-samples rule. */
  ghost predicate Smallest(samples: seq<real>, target: real, n: nat) {
    && SAMPLES_MIN <= n <= |samples|
    && Meets(samples, target, n)
    && forall m :: SAMPLES_MIN <= m < n ==> !Meets(samples, target, m)
  }

  ghost predicate NoneMeets(samples: seq<real>, target: real) {
    forall m :: SAMPLES_MIN <= m <= |samples| ==> !Meets(samples, target, m)
  }

  /** The newest samples after one more, of which at most SAMPLES_MAX are kept. */
  function Recorded(samples: seq<real>, len: real): seq<real> {
    var all := [len] + samples;
    if |all| > SAMPLES_MAX then all[..SAMPLES_MAX] else all
  }

  predicate Due(c: Control, time: real) {
    time - c.lastTime >= SAMPLE_PERIOD
  }

  /** A window was found, and these are its samples, the verdict and the state it leads to. */
  function Decided(c: Control, samples: seq<real>, target: real, n: nat): Control
    requires 0 < n <= |samples|
  {
    var verdict := Verdict(Mean(samples, n), target);
    c.(command := verdict, samples := if verdict == Noop then samples else [])
  }

  /** What a call of handle_sampling does, by the windows that meet the rule. */
  ghost predicate SamplesTo(c: Control, time: real, len: real, target: real, d: Control) {
    if !Due(c, time) then d == c
    else
      var samples := Recorded(c.samples, len);
      var noted := c.(samples := samples, lastTime := time);
      || (NoneMeets(samples, target) && d == noted)
      || exists n :: Smallest(samples, target, n) && d == Decided(noted, samples, target, n)
  }

  // ------------------------------------------------------------ overflow

  /** What a call of handle_overflowing does to the overflow flag. */
  function Overflowing(was: bool, len: real, target: real, overflow: real): bool {
    var on := was || len > overflow;
    on && !(len < target + 1.0)
  }

  /** One call switches the flag on and straight off again. */
  predicate Flickers(was: bool, len: real, target: real, overflow: real) {
    !was && len > overflow && len < target + 1.0
  }

  function OverflowsTo(c: Control, len: real, target: real, overflow: real): Control {
    var on := Overflowing(c.overflowing, len, target, overflow);
    c.(overflowing := on, command := if on then Drop else c.command)
  }

  /** The running-sum loop over windows of growing size, up to the first that meets the rule. */
  method ExpandWindow(samples: seq<real>, target: real) returns (found: bool, count: nat, average: real)
    requires |samples| >= SAMPLES_MIN
    ensures found ==> Smallest(samples, target, count) && average == Mean(samples, count)
    ensures !found ==> NoneMeets(samples, target)
  {
    var sum := 0.0;
    var i := 0;
    while i < SAMPLES_MIN - 1
      invariant 0 <= i <= SAMPLES_MIN - 1
      invariant sum == Sum(samples[..i])
    {
      SumExtends(samples, i);
      sum := sum + samples[i];
      i := i + 1;
    }
    count := SAMPLES_MIN;
    average := 0.0;
    while count <= |samples|
      invariant SAMPLES_MIN <= count <= |samples| + 1
      invariant sum == Sum(samples[..count - 1])
      invariant forall m :: SAMPLES_MIN <= m < count ==> !Meets(samples, target, m)
    {
      SumExtends(samples, count - 1);
      sum := sum + samples[count - 1];
      average := sum / count as real;
      var distance := Distance(average, target);
      var needed := SAMPLES_MAX as real;
      if distance > STRENGTH_FACTOR {
        needed := needed / (distance / STRENGTH_FACTOR);
      }
      if count as real >= needed {
        return true, count, average;
      }
      count := count + 1;
    }
    return false, count, average;
  }

  class QueueLenController {
    var samples: seq<real>
    var lastSampleTime: real
    var isOverflowing: bool
    var adjustCommand: Command

    ghost function View(): Control
      reads this
    {
      Control(samples, lastSampleTime, isOverflowing, adjustCommand)
    }

    constructor ()
      ensures View() == Control([], 0.0, false, Noop)
    {
      isOverflowing := false;
      lastSampleTime := 0.0;
      adjustCommand := Noop;
      samples := [];
    }

    method ResetSampling()
      modifies this
      ensures View() == old(View()).(samples := [])
    {
      samples := [];
    }

    method ConsumeLastAdjustCommand()
      modifies this
      ensures View() == old(View()).(command := Noop)
    {
      adjustCommand := Noop;
    }

    method Record(len: real)
      modifies this`samples
      ensures samples == Recorded(old(samples), len)
    {
      samples := [len] + samples;
      ghost var all := samples;
      while |samples| > SAMPLES_MAX
        invariant |samples| <= |all| && samples == all[..|samples|]
        invariant |samples| >= SAMPLES_MAX || samples == all
      {
        samples := samples[..|samples| - 1];
      }
    }

    method Decide(average: real, target: real)
      modifies this
      ensures var verdict := Verdict(average, target);
              View() == old(View()).(command := verdict, samples := if verdict == Noop then old(samples) else [])
    {
      if average < target - ACCEPTABLE_DELTA {
        adjustCommand := Dup;
        ResetSampling();
      } else if average > target + ACCEPTABLE_DELTA {
        adjustCommand := Drop;
        ResetSampling();
      } else {
        adjustCommand := Noop;
      }
    }

    method HandleSampling(time: real, len: real, target: real)
      modifies this
      ensures SamplesTo(old(View()), time, len, target, View())
    {
      if time - lastSampleTime < SAMPLE_PERIOD {
        return;
      }
      Record(len);
      lastSampleTime := time;
      if |samples| < SAMPLES_MIN {
        return;
      }
      var found, count, average := ExpandWindow(samples, target);
      if found {
        ghost var noted := View();
        Decide(average, target);
        assert View() == Decided(noted, noted.samples, target, count);
      }
    }

    method HandleOverflowing(len: real, target: real, overflow: real)
      modifies this
      ensures View() == OverflowsTo(old(View()), len, target, overflow)
    {
      if !isOverflowing && len > overflow {
        isOverflowing := true;
      }
      if isOverflowing && len < target + 1.0 {
        isOverflowing := false;
      }
      if isOverflowing {
        adjustCommand := Drop;
      }
    }
  }

  lemma SumExtends(s: seq<real>, n: nat)
    requires n < |s|
    ensures Sum(s[..n + 1]) == Sum(s[..n]) + s[n]
  {
    assert s[..n + 1][..n] == s[..n];
  }

  // ------------------------------------------------------------ what decisions mean

  /** The outcome of a call is determined: two smallest windows are the same window. */
  lemma SamplingDeterministic(c: Control, time: real, len: real, target: real, d: Control, e: Control)
    requires SamplesTo(c, time, len, target, d) && SamplesTo(c, time, len, target, e)
    ensures d == e
  {
    var samples := Recorded(c.samples, len);
    var noted := c.(samples := samples, lastTime := time);
    if Due(c, time) && !NoneMeets(samples, target) {
      var n :| Smallest(samples, target, n) && d == Decided(noted, samples, target, n);
      var m :| Smallest(samples, target, m) && e == Decided(noted, samples, target, m);
      assert n == m;
    }
  }

  /** A window shorter than the full 50 samples decides only to act, never to do nothing. */
  lemma EarlyDecisionsAct(samples: seq<real>, target: real, n: nat)
    requires 0 < n <= |samples| && n < SAMPLES_MAX && Meets(samples, target, n)
    ensures Verdict(Mean(samples, n), target) != Noop
    ensures Distance(Mean(samples, n), target) > STRENGTH_FACTOR
  {}

  /** The rule without its division: a window of `n` acts from a distance of 180 / n. */
  lemma MeetsByDistance(samples: seq<real>, target: real, n: nat)
    requires 0 < n <= |samples| && n < SAMPLES_MAX
    ensures Meets(samples, target, n) <==> n as real * Distance(Mean(samples, n), target) >= 180.0
  {
    NeededByProduct(n as real, Distance(Mean(samples, n), target));
  }

  lemma NeededByProduct(n: real, d: real)
    requires 0.0 < n < SAMPLES_MAX as real
    ensures n >= Needed(d) <==> n * d >= 180.0
  {
    if d > STRENGTH_FACTOR {
      var q := 50.0 / (d / 3.6);
      assert q * d == 180.0;
      if n >= q {
        assert n * d >= q * d;
      } else {
        assert n * d < q * d;
      }
    } else if d > 0.0 {
      assert n * d < 50.0 * d;
    } else {
      assert n * d <= 0.0;
    }
  }

  /**
    A verdict is to do nothing exactly within 1.2 frames of the target; beyond, it duplicates
    below the target and drops above it.
   */
  lemma VerdictTowardsTarget(mean: real, target: real)
    ensures Verdict(mean, target) == Noop <==> Distance(mean, target) <= 1.2
    ensures Verdict(mean, target) == Dup ==> mean < target
    ensures Verdict(mean, target) == Drop ==> mean > target
  {}

  // ------------------------------------------------------------ runs

  /** The calls the client makes on the controller, in any order. */
  datatype Call =
    | Sampling(time: real, len: real, target: real)
    | ResetSamples
    | Overflow(len: real, target: real, overflow: real)
    | Consume

  ghost predicate CallTo(c: Control, call: Call, d: Control) {
    match call
    case Sampling(time, len, target) => SamplesTo(c, time, len, target, d)
    case ResetSamples => d == c.(samples := [])
    case Overflow(len, target, overflow) => d == OverflowsTo(c, len, target, overflow)
    case Consume => d == c.(command := Noop)
  }

  /** The controller before each call and after the last one. */
  ghost predicate IsRun(calls: seq<Call>, states: seq<Control>) {
    && |states| == |calls| + 1
    && states[0] == Control([], 0.0, false, Noop)
    && forall k :: 0 <= k < |calls| ==> CallTo(states[k], calls[k], states[k + 1])
  }

  /** Call `k` records a fresh sample. */
  predicate Records(calls: seq<Call>, states: seq<Control>, k: nat)
    requires k < |calls| && |states| == |calls| + 1
  {
    calls[k].Sampling? && Due(states[k], calls[k].time)
  }

  /** Call `k` is a sampling call that ends in a command: it records a sample and then forgets them all. */
  predicate Commands(calls: seq<Call>, states: seq<Control>, k: nat)
    requires k < |calls| && |states| == |calls| + 1
  {
    Records(calls, states, k) && states[k + 1].command != Noop && states[k + 1].samples == []
  }

  /** The fresh samples recorded by the calls from `i` up to `j`. */
  function Fresh(calls: seq<Call>, states: seq<Control>, i: nat, j: nat): nat
    requires i <= j <= |calls| && |states| == |calls| + 1
    decreases j
  {
    if i == j then 0
    else Fresh(calls, states, i, j - 1) + (if Records(calls, states, j - 1) then 1 else 0)
  }

  lemma RecordingCall(c: Control, time: real, len: real, target: real, d: Control)
    requires SamplesTo(c, time, len, target, d) && |c.samples| <= SAMPLES_MAX
    ensures |d.samples| <= SAMPLES_MAX
    ensures if Due(c, time) then d.lastTime == time && |d.samples| <= |c.samples| + 1 else d == c
  {}

  /** The sample queue never holds more than 50 samples. */
  lemma {:induction false} QueueBounded(calls: seq<Call>, states: seq<Control>, k: nat)
    requires IsRun(calls, states) && k < |states|
    ensures |states[k].samples| <= SAMPLES_MAX
  {
    if k > 0 {
      QueueBounded(calls, states, k - 1);
      assert CallTo(states[k - 1], calls[k - 1], states[k]);
      hide SamplesTo;
      if calls[k - 1].Sampling? {
        var call := calls[k - 1];
        RecordingCall(states[k - 1], call.time, call.len, call.target, states[k]);
      }
    }
  }

  /** Call `k` empties the sample queue. */
  predicate Forgets(calls: seq<Call>, states: seq<Control>, k: nat)
    requires k < |calls| && |states| == |calls| + 1
  {
    calls[k].ResetSamples? || Commands(calls, states, k)
  }

  /** The lengths recorded by the calls from `i` up to `j`, the newest first. */
  function Lengths(calls: seq<Call>, states: seq<Control>, i: nat, j: nat): seq<real>
    requires i <= j <= |calls| && |states| == |calls| + 1
    decreases j
  {
    if i == j then []
    else (if Records(calls, states, j - 1) then [calls[j - 1].len] else []) + Lengths(calls, states, i, j - 1)
  }

  function Newest(lens: seq<real>): seq<real> {
    if |lens| > SAMPLES_MAX then lens[..SAMPLES_MAX] else lens
  }

  lemma RecordedIsNewest(lens: seq<real>, len: real)
    ensures Recorded(Newest(lens), len) == Newest([len] + lens)
  {}

  /** The queue holds the newest lengths, 50 at most, recorded since it was last emptied. */
  lemma {:induction false} SamplesAreNewest(calls: seq<Call>, states: seq<Control>, i: nat, j: nat)
    requires IsRun(calls, states) && i <= j <= |calls| && states[i].samples == []
    requires forall k :: i <= k < j ==> !Forgets(calls, states, k)
    ensures states[j].samples == Newest(Lengths(calls, states, i, j))
    decreases j
  {
    if j > i {
      var n := j - 1;
      SamplesAreNewest(calls, states, i, n);
      assert !Forgets(calls, states, n) && CallTo(states[n], calls[n], states[j]);
      if Records(calls, states, n) {
        RecordedIsNewest(Lengths(calls, states, i, n), calls[n].len);
        NotForgotten(calls, states, n);
      }
      hide SamplesTo, Newest;
    }
  }

  /** A recording call that does not act keeps what it recorded. */
  lemma NotForgotten(calls: seq<Call>, states: seq<Control>, k: nat)
    requires IsRun(calls, states) && k < |calls| && Records(calls, states, k) && !Forgets(calls, states, k)
    ensures states[k + 1].samples == Recorded(states[k].samples, calls[k].len)
  {
    assert CallTo(states[k], calls[k], states[k + 1]);
  }

  /** Commands are exactly the decisions to act of the smallest window that meets the rule. */
  lemma CommandsAreDecisions(calls: seq<Call>, states: seq<Control>, k: nat)
    requires IsRun(calls, states) && k < |calls| && Records(calls, states, k)
    ensures var samples := Recorded(states[k].samples, calls[k].len);
            Commands(calls, states, k) <==>
              exists n :: Smallest(samples, calls[k].target, n) && Verdict(Mean(samples, n), calls[k].target) != Noop
  {
    assert CallTo(states[k], calls[k], states[k + 1]);
    var samples, target := Recorded(states[k].samples, calls[k].len), calls[k].target;
    var noted := states[k].(samples := samples, lastTime := calls[k].time);
    if n :| Smallest(samples, target, n) && states[k + 1] == Decided(noted, samples, target, n) {
      assert forall m :: Smallest(samples, target, m) ==> m == n;
    } else {
      assert NoneMeets(samples, target) && states[k + 1] == noted;
    }
  }

  /** After a command, the queue holds only later samples, each one period after the last. */
  lemma {:induction false} AfterCommand(calls: seq<Call>, states: seq<Control>, i: nat, j: nat)
    requires IsRun(calls, states) && i < j <= |calls| && Commands(calls, states, i)
    ensures var count := Fresh(calls, states, i + 1, j);
            |states[j].samples| <= count
            && states[j].lastTime >= calls[i].time + SAMPLE_PERIOD * count as real
    decreases j
  {
    if j == i + 1 {
      assert CallTo(states[i], calls[i], states[j]);
    } else {
      AfterCommand(calls, states, i, j - 1);
      QueueBounded(calls, states, j - 1);
      assert CallTo(states[j - 1], calls[j - 1], states[j]);
      hide SamplesTo;
      if calls[j - 1].Sampling? {
        var call := calls[j - 1];
        RecordingCall(states[j - 1], call.time, call.len, call.target, states[j]);
      }
    }
  }

  /** Two sampling-driven commands are at least 8 fresh samples and 160 ms apart. */
  lemma {:induction false} CommandsSpaced(calls: seq<Call>, states: seq<Control>, i: nat, j: nat)
    requires IsRun(calls, states) && i < j < |calls|
    requires Commands(calls, states, i) && Commands(calls, states, j)
    ensures Fresh(calls, states, i + 1, j + 1) >= SAMPLES_MIN
    ensures calls[j].time - calls[i].time >= 0.16
  {
    AfterCommand(calls, states, i, j);
    CommandsAreDecisions(calls, states, j);
    var n :| Smallest(Recorded(states[j].samples, calls[j].len), calls[j].target, n);
    assert |states[j].samples| + 1 >= SAMPLES_MIN;
  }

  // ------------------------------------------------------------ overflow and the scale

  /**
    For target and overflow sizes of a scale that the scaling controller can reach, no
    call switches the overflow flag on and off, so the flag follows a plain hysteresis.
   */
  lemma {:induction false} OverflowLatches(start: real, run: seq<Scaling.Sample>, was: bool, len: real)
    ensures var scale := Scaling.After(start, run).scale;
            var target := Scaling.TARGET_INITIAL * scale;
            var overflow := Scaling.OVERFLOW_INITIAL * scale;
            && !Flickers(was, len, target, overflow)
            && Overflowing(was, len, target, overflow) == (if was then len >= target + 1.0 else len > overflow)
  {
    Scaling.ScaleAlwaysInRange(start, run);
  }

  /**
    The forced drop: for such sizes the command after a call is Drop when the queue overflows
    in the sense of that hysteresis, and is left alone otherwise, like everything else.
   */
  lemma {:induction false} OverflowForcesDrop(start: real, run: seq<Scaling.Sample>, c: Control, len: real)
    ensures var scale := Scaling.After(start, run).scale;
            var d := OverflowsTo(c, len, 8.0 * scale, 20.0 * scale);
            && d.command == (if (if c.overflowing then len >= 8.0 * scale + 1.0 else len > 20.0 * scale)
                             then Drop else c.command)
            && d.samples == c.samples && d.lastTime == c.lastTime
  {
    Scaling.ScaleAlwaysInRange(start, run);
  }

  /** The margin: flicker is impossible exactly for scales from one twelfth up. */
  lemma FlickerExactly(scale: real)
    ensures var target, overflow := Scaling.TARGET_INITIAL * scale, Scaling.OVERFLOW_INITIAL * scale;
            (forall len :: !Flickers(false, len, target, overflow)) <==> 12.0 * scale >= 1.0
  {
    var target, overflow := Scaling.TARGET_INITIAL * scale, Scaling.OVERFLOW_INITIAL * scale;
    if 12.0 * scale < 1.0 {
      assert Flickers(false, (target + 1.0 + overflow) / 2.0, target, overflow);
    }
  }
}
