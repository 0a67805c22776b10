/**
  A run of the machine in AudioDevice that fills the device with 34 frames: the bound
  proved of it is attained, and a bound of 32 frames does not hold of every run.
 */
module AudioDeviceWitness {
  import opened AudioDevice
  import opened AudioDeviceProofs
  import Scaling = AudioScaling
  import Sampling = AudioSampling
  import Playback = AudioPlayback

  ghost predicate Reaches(s: State, t: State) {
    exists steps :: Run(s, steps, t)
  }

  lemma Stay(s: State)
    ensures Reaches(s, s)
  {
    assert Run(s, [], s);
  }

  lemma Then(s: State, t: State, step: Step)
    requires Reaches(s, t) && Enabled(t, step)
    ensures Reaches(s, Apply(t, step))
  {
    hide Enabled, Apply;
    var steps :| Run(s, steps, t);
    RunOn(s, steps, t, step);
  }

  // ------------------------------------------------------------ up to the largest scale

  function Quiet(): Sampling.Control {
    Sampling.Control([], 0.0, false, Sampling.Noop)
  }

  /** Buffering, with the given fill, and no frame on its way. */
  function Filled(fill: nat, c: Scaling.Control): State {
    State(Device(0, Playback.Buffering, fill), Idle, Waiting, Context(false, Sampling.Noop), c, Quiet())
  }

  /** A ready call on an empty device that finds no packet. */
  lemma EmptyCall(a: State, c: Scaling.Control, time: real)
    requires Reaches(a, Filled(0, c)) && ScaleOk(c)
    ensures Reaches(a, Filled(0, Scaling.Scaled(c, 0.0, time)))
  {
    Scaling.ScaleInRange(c, 0.0, time);
    hide Scaling.Scaled, Reaches;
    var s := Filled(0, c);
    var next := Scaling.Scaled(c, 0.0, time);
    Then(a, s, Ask(0));
    var s1 := s.(net := Asked(0, 0, false));
    Then(a, s1, Rescale(time));
    var s2 := s.(net := Rescaled(0, 0, false), scaling := next);
    Then(a, s2, Resample(time, Quiet()));
    Then(a, s2.(net := Resampled(0, 0, false)), Decide(false));
  }

  function Raised(c: Scaling.Control, time: real): Scaling.Control {
    Scaling.Scaled(Scaling.Scaled(Scaling.Scaled(c, 0.0, time - 10.0), 0.0, time - 5.0), 0.0, time)
  }

  /** Three risky moments raise the scale. */
  lemma RiskyRound(c: Scaling.Control, time: real)
    requires c.riskyCount == 0 && c.lastRisky == time - 15.0 && 2.0 <= c.coolDown <= 4.0
    ensures Raised(c, time) == Scaling.Reset(time, Scaling.UpTo(c))
  {}

  lemma EmptyRound(a: State, c: Scaling.Control, time: real)
    requires Reaches(a, Filled(0, c)) && ScaleOk(c)
    requires c.riskyCount == 0 && c.lastRisky == time - 15.0 && 2.0 <= c.coolDown <= 4.0
    ensures Reaches(a, Filled(0, Scaling.Reset(time, Scaling.UpTo(c))))
  {
    RiskyRound(c, time);
    hide Reaches;
    var c1 := Scaling.Scaled(c, 0.0, time - 10.0);
    var c2 := Scaling.Scaled(c1, 0.0, time - 5.0);
    Scaling.ScaleInRange(c, 0.0, time - 10.0);
    Scaling.ScaleInRange(c1, 0.0, time - 5.0);
    hide Scaling.Scaled;
    EmptyCall(a, c, time - 10.0);
    EmptyCall(a, c1, time - 5.0);
    EmptyCall(a, c2, time);
  }

  const WIDE: Scaling.Control := Scaling.Reset(60.0, 4.0)

  lemma ReachWide()
    ensures Reaches(Initial(0.0), Filled(0, WIDE))
  {
    Stay(Initial(0.0));
    hide Reaches;
    var a := Initial(0.0);
    EmptyRound(a, Scaling.Started(0.0), 15.0);
    EmptyRound(a, Scaling.Reset(15.0, 1.5), 30.0);
    EmptyRound(a, Scaling.Reset(30.0, 2.25), 45.0);
    EmptyRound(a, Scaling.Reset(45.0, 3.375), 60.0);
  }

  // ------------------------------------------------------------ a full device

  lemma WideStays()
    ensures Scaling.Scaled(WIDE, 0.0, 60.0) == WIDE
  {}

  /** A packet is accepted while buffering. */
  function Accepted(fill: nat): State {
    Filled(fill, WIDE).(context := Context(true, Sampling.Noop))
  }

  lemma AcceptWhileBuffering(a: State, fill: nat)
    requires Reaches(a, Filled(fill, WIDE))
    ensures Reaches(a, Accepted(fill))
  {
    WideStays();
    hide Scaling.Scaled, Reaches;
    var s := Filled(fill, WIDE);
    Then(a, s, Ask(1));
    Then(a, s.(net := Asked(0, 1, false)), Rescale(60.0));
    Then(a, s.(net := Rescaled(0, 1, false)), Resample(60.0, Quiet()));
    Then(a, s.(net := Resampled(0, 1, false)), Decide(true));
  }

  lemma BufferOne(a: State, n: nat)
    requires Reaches(a, Filled(n * FRAME, WIDE)) && n <= 30
    ensures Reaches(a, Filled((n + 1) * FRAME, WIDE))
  {
    AcceptWhileBuffering(a, n * FRAME);
    hide Reaches;
    var s := Accepted(n * FRAME);
    Then(a, s, Begin(true));
    Then(a, s.(render := Sent(1)), Check);
    Then(a, s.(render := Checked(1)), Deliver);
    Then(a, Accepted((n + 1) * FRAME).(render := Sent(0)), Finish);
  }

  lemma {:induction false} BufferMany(a: State, n: nat)
    requires Reaches(a, Filled(0, WIDE)) && n <= 31
    ensures Reaches(a, Filled(n * FRAME, WIDE))
  {
    hide Reaches;
    if n > 0 {
      BufferMany(a, n - 1);
      BufferOne(a, n - 1);
    }
  }

  /** Playing, no render under way. */
  function Full(queued: nat, context: Context, c: Scaling.Control, q: Sampling.Control): State {
    State(Device(queued, Playback.Playing, 0), Idle, Waiting, context, c, q)
  }

  lemma FlushAll(a: State)
    requires Reaches(a, Filled(31 * FRAME, WIDE))
    ensures Reaches(a, Full(30 * FRAME, Context(false, Sampling.Noop), WIDE, Quiet()))
  {
    AcceptWhileBuffering(a, 31 * FRAME);
    hide Reaches;
    var s := Accepted(31 * FRAME);
    Then(a, s, Begin(true));
    Then(a, s.(render := Sent(1)), Check);
    Then(a, s.(render := Checked(1)), Deliver);
    Then(a, s.(device := Device(31 * FRAME, Playback.Buffering, 0), render := Flushed(1)), Deliver);
    var t := Full(32 * FRAME, Context(true, Sampling.Noop), WIDE, Quiet());
    Then(a, t.(render := Sent(0)), Finish);
    Then(a, t.(context := Context(false, Sampling.Noop)), Drain(2 * FRAME));
  }

  // ------------------------------------------------------------ fifty samples, 49 of 30 frames and one of 31

  function Constant(n: nat): seq<real> {
    seq(n, _ => 30.0)
  }

  lemma {:induction false} ConstantSum(n: nat)
    ensures Sampling.Sum(Constant(n)) == 30.0 * n as real
  {
    if n > 0 {
      ConstantSum(n - 1);
      assert Constant(n)[..n - 1] == Constant(n - 1);
    }
  }

  lemma QuotientOf(x: real, y: real)
    requires y > 0.0
    ensures x * y / y == x
  {}

  lemma ConstantMean(k: nat, n: nat)
    requires 0 < n <= k
    ensures Sampling.Mean(Constant(k), n) == 30.0
  {
    ConstantSum(n);
    assert Constant(k)[..n] == Constant(n);
    QuotientOf(30.0, n as real);
  }

  /** After `k` samples, the last of them at `time`. */
  function Samples(k: nat, time: real, command: Sampling.Command): Sampling.Control {
    Sampling.Control(Constant(k), time, false, command)
  }

  lemma SampleOn(k: nat, was: real, time: real)
    requires k < 49 && time - was >= Sampling.SAMPLE_PERIOD
    ensures Sampling.SamplesTo(Samples(k, was, Sampling.Noop), time, 30.0, 32.0, Samples(k + 1, time, Sampling.Noop))
  {
    var all := Constant(k + 1);
    assert [30.0] + Constant(k) == all;
    forall m | Sampling.SAMPLES_MIN <= m <= k + 1
      ensures !Sampling.Meets(all, 32.0, m)
    {
      ConstantMean(k + 1, m);
    }
  }

  /** A sample of 31 frames, the newest, on top of samples of 30. */
  function Topped(n: nat): seq<real> {
    [31.0] + Constant(n)
  }

  lemma {:induction false} ToppedSum(n: nat)
    ensures Sampling.Sum(Topped(n)) == 30.0 * n as real + 31.0
  {
    if n == 0 {
      assert Topped(0) == [31.0] && [31.0][..0] == [];
      assert Sampling.Sum([31.0]) == Sampling.Sum([31.0][..0]) + 31.0;
    } else {
      ToppedSum(n - 1);
      assert Topped(n)[..n] == Topped(n - 1);
    }
  }

  lemma ToppedMean(k: nat, n: nat)
    requires 0 < n <= k + 1
    ensures 30.0 < Sampling.Mean(Topped(k), n) <= 31.0
    ensures n == 50 ==> Sampling.Mean(Topped(k), n) == 30.02
  {
    ToppedSum(n - 1);
    assert Topped(k)[..n] == Topped(n - 1);
    QuotientBetween(30.0 * (n - 1) as real + 31.0, n as real);
  }

  lemma QuotientBetween(x: real, n: real)
    requires n >= 1.0 && x == 30.0 * (n - 1.0) + 31.0
    ensures 30.0 < x / n <= 31.0
  {
    QuotientOf(30.0, n);
    assert x / n == (30.0 * n + 1.0) / n;
    assert (30.0 * n + 1.0) / n == 30.0 + 1.0 / n;
  }

  lemma SampleLast(was: real, time: real)
    requires time - was >= Sampling.SAMPLE_PERIOD
    ensures Sampling.SamplesTo(Samples(49, was, Sampling.Noop), time, 31.0, 32.0, Samples(0, time, Sampling.Dup))
  {
    var all := Topped(49);
    forall m | Sampling.SAMPLES_MIN <= m < 50
      ensures !Sampling.Meets(all, 32.0, m)
    {
      ToppedMean(49, m);
    }
    ToppedMean(49, 50);
    assert Sampling.Smallest(all, 32.0, 50);
  }

  /** The scaling controller once it has seen 30 frames. */
  const SEEN: Scaling.Control := WIDE.(minLen := 30.0)

  lemma SeenStays(time: real)
    requires 60.0 <= time <= 90.0
    ensures Scaling.Scaled(WIDE, 30.0, time) == SEEN && Scaling.Scaled(SEEN, 30.0, time) == SEEN
  {}

  /** Whether or not a frame is pending, a call that finds no packet only samples. */
  lemma SampleCall(a: State, context: Context, c: Scaling.Control, k: nat, was: real, time: real)
    requires Reaches(a, Full(30 * FRAME, context, c, Samples(k, was, Sampling.Noop)))
    requires c == WIDE || c == SEEN
    requires k < 49 && time - was >= Sampling.SAMPLE_PERIOD && 60.0 <= time <= 90.0
    ensures Reaches(a, Full(30 * FRAME, context, SEEN, Samples(k + 1, time, Sampling.Noop)))
  {
    SeenStays(time);
    SampleOn(k, was, time);
    hide Scaling.Scaled, Reaches, Sampling.SamplesTo;
    var s := Full(30 * FRAME, context, c, Samples(k, was, Sampling.Noop));
    var next := Samples(k + 1, time, Sampling.Noop);
    Then(a, s, Ask(0));
    Then(a, s.(net := Asked(30 * FRAME, 0, context.pending)), Rescale(time));
    Then(a, s.(net := Rescaled(30 * FRAME, 0, context.pending), scaling := SEEN), Resample(time, next));
    Then(a, s.(net := Resampled(30 * FRAME, 0, context.pending), scaling := SEEN, queue := next), Decide(false));
  }

  function Clock(base: real, k: nat): real {
    base + k as real / 50.0
  }

  lemma {:induction false} SampleCalls(a: State, context: Context, c: Scaling.Control, was: real, base: real, k: nat)
    requires Reaches(a, Full(30 * FRAME, context, c, Samples(0, was, Sampling.Noop)))
    requires c == WIDE || c == SEEN
    requires was <= base && 60.0 <= base <= 80.0 && 0 < k <= 49
    ensures Reaches(a, Full(30 * FRAME, context, SEEN, Samples(k, Clock(base, k), Sampling.Noop)))
  {
    hide Reaches;
    if k == 1 {
      SampleCall(a, context, c, 0, was, Clock(base, 1));
    } else {
      SampleCalls(a, context, c, was, base, k - 1);
      SampleCall(a, context, SEEN, k - 1, Clock(base, k - 1), Clock(base, k));
    }
  }

  // ------------------------------------------------------------ two duplicated frames

  const DOUBLED: Context := Context(true, Sampling.Dup)

  /** The fiftieth sample asks for a duplicate, and the packet with it is accepted. */
  lemma FirstDuplicate(a: State, was: real, time: real)
    requires Reaches(a, Full(30 * FRAME, Context(false, Sampling.Noop), SEEN, Samples(49, was, Sampling.Noop)))
    requires time - was >= Sampling.SAMPLE_PERIOD && 60.0 <= time <= 90.0
    ensures Reaches(a, Full(30 * FRAME, DOUBLED, SEEN, Samples(0, time, Sampling.Noop)))
  {
    SeenStays(time);
    SampleLast(was, time);
    hide Scaling.Scaled, Reaches, Sampling.SamplesTo;
    var s := Full(30 * FRAME, Context(false, Sampling.Noop), SEEN, Samples(49, was, Sampling.Noop));
    var next := Samples(0, time, Sampling.Dup);
    Then(a, s, Ask(1));
    Then(a, s.(net := Asked(30 * FRAME, 1, false)), Rescale(time));
    Then(a, s.(net := Rescaled(30 * FRAME, 1, false)), Resample(time, next));
    Then(a, s.(net := Resampled(30 * FRAME, 1, false), queue := next), Decide(true));
  }

  /** A duplicated frame is rendered while the network thread is at `net`. */
  lemma RenderDuplicate(a: State, queued: nat, net: Net, q: Sampling.Control)
    requires queued > 0
    requires Reaches(a, Full(queued, DOUBLED, SEEN, q).(net := net))
    ensures Reaches(a, Full(queued + 2 * FRAME, Context(false, Sampling.Dup), SEEN, q).(net := net))
  {
    hide Reaches;
    var s := Full(queued, DOUBLED, SEEN, q).(net := net);
    Then(a, s, Begin(true));
    Then(a, s.(render := Sent(2)), Check);
    Then(a, s.(render := Checked(2)), Deliver);
    var t := Full(queued + FRAME, DOUBLED, SEEN, q).(net := net);
    Then(a, t.(render := Sent(1)), Check);
    Then(a, t.(render := Checked(1)), Deliver);
    var u := Full(queued + 2 * FRAME, DOUBLED, SEEN, q).(net := net);
    Then(a, u.(render := Sent(0)), Finish);
  }

  /** The call that straddles a render: it has read 30 frames and finds no frame pending. */
  lemma SecondDuplicate(a: State, was: real, time: real)
    requires Reaches(a, Full(30 * FRAME, DOUBLED, SEEN, Samples(49, was, Sampling.Noop)))
    requires time - was >= Sampling.SAMPLE_PERIOD && 60.0 <= time <= 90.0
    ensures Reaches(a, Full(32 * FRAME, DOUBLED, SEEN, Samples(0, time, Sampling.Noop)))
  {
    SeenStays(time);
    SampleLast(was, time);
    hide Scaling.Scaled, Reaches, Sampling.SamplesTo;
    var q := Samples(49, was, Sampling.Noop);
    var next := Samples(0, time, Sampling.Dup);
    Then(a, Full(30 * FRAME, DOUBLED, SEEN, q), Ask(1));
    RenderDuplicate(a, 30 * FRAME, Asked(30 * FRAME, 1, true), q);
    var s := Full(32 * FRAME, Context(false, Sampling.Dup), SEEN, q);
    Then(a, s.(net := Asked(30 * FRAME, 1, true)), Rescale(time));
    Then(a, s.(net := Rescaled(30 * FRAME, 1, true)), Resample(time, next));
    Then(a, s.(net := Resampled(30 * FRAME, 1, true), queue := next), Decide(true));
  }

  /** The device can hold 34 frames, two more than the largest target. */
  lemma DeviceBoundAttained() returns (steps: seq<Step>, t: State)
    ensures Run(Initial(0.0), steps, t) && t.device.queued == 34 * FRAME
  {
    var a := Initial(0.0);
    ReachWide();
    BufferMany(a, 31);
    FlushAll(a);
    assert Constant(0) == [];
    SampleCalls(a, Context(false, Sampling.Noop), WIDE, 0.0, 60.0, 49);
    FirstDuplicate(a, Clock(60.0, 49), 61.0);
    SampleCalls(a, DOUBLED, SEEN, 61.0, 61.0, 49);
    SecondDuplicate(a, Clock(61.0, 49), 62.0);
    var q := Samples(0, 62.0, Sampling.Noop);
    RenderDuplicate(a, 32 * FRAME, Idle, q);
    t := Full(34 * FRAME, Context(false, Sampling.Dup), SEEN, q);
    steps :| Run(a, steps, t);
  }
}
