/** How full the audio device can get, and when exactly it gets fuller than the largest target. */
module AudioDeviceTheorems {
  import opened AudioDevice
  import opened AudioDeviceProofs
  import opened Sampling = AudioSampling
  import Playback = AudioPlayback

  // ------------------------------------------------------------ theorems

  /** In every run the device holds at most 34 frames. */
  lemma DeviceBound(time: real, steps: seq<Step>, t: State)
    requires Run(Initial(time), steps, t)
    ensures t.device.queued <= 34 * FRAME
  {
    RunKeeps(Initial(time), steps, t, 34 * FRAME);
  }

  /** Only a call that straddles a render can accept too much. */
  lemma OverfullStraddles(s: State, step: Step, cap: nat)
    requires Inv(s, cap) && Overfull(s, step)
    ensures Straddles(s, step)
  {}

  lemma {:induction false} OverfullStraddlesRun(s: State, steps: seq<Step>)
    requires Inv(s, LARGEST) && SomeOverfull(s, steps)
    ensures SomeStraddle(s, steps)
    decreases |steps|
  {
    hide Inv, Apply, Enabled, Overfull, Straddles;
    if Overfull(s, steps[0]) {
      OverfullStraddles(s, steps[0], LARGEST);
    } else {
      StepKeeps(s, steps[0], LARGEST);
      OverfullStraddlesRun(Apply(s, steps[0]), steps[1..]);
    }
  }

  /** It holds at most 32 when no render completes between the two reads of one ready call. */
  lemma DeviceBoundUndisturbed(time: real, steps: seq<Step>, t: State)
    requires Run(Initial(time), steps, t) && !SomeStraddle(Initial(time), steps)
    ensures t.device.queued <= LARGEST
  {
    if SomeOverfull(Initial(time), steps) {
      OverfullStraddlesRun(Initial(time), steps);
    } else {
      RunKeeps(Initial(time), steps, t, LARGEST);
    }
  }

  lemma {:induction false} AudioAloneNotOverfull(s: State, steps: seq<Step>)
    requires AudioOnly(steps)
    ensures !SomeOverfull(s, steps)
    decreases |steps|
  {
    if steps != [] && Enabled(s, steps[0]) {
      AudioAloneNotOverfull(Apply(s, steps[0]), steps[1..]);
    }
  }

  /** Once too much has been accepted, the audio thread alone takes the device over the mark. */
  lemma OverfullExceeds(s: State, step: Step, cap: nat)
    requires Inv(s, cap) && Enabled(s, step) && Overfull(s, step)
    ensures ExceedsAlone(Apply(s, step))
  {
    var a := Apply(s, step);
    assert a.render == Waiting && a.context.pending && a.device.queued > 0;
    var b := Apply(a, Begin(true));
    var c := Apply(b, Check);
    var d := Apply(c, Deliver);
    assert Run(a, [], a);
    RunOn(a, [], a, Begin(true));
    RunOn(a, [Begin(true)], b, Check);
    RunOn(a, [Begin(true)] + [Check], c, Deliver);
    var first := [Begin(true)] + [Check] + [Deliver];
    if s.queue.command == Dup {
      var e := Apply(d, Check);
      var f := Apply(e, Deliver);
      RunOn(a, first, d, Check);
      RunOn(a, first + [Check], e, Deliver);
      assert AudioOnly(first + [Check] + [Deliver]);
    } else {
      assert AudioOnly(first);
    }
  }

  lemma {:induction false} ExceedsExactlyFrom(s: State, steps: seq<Step>, t: State)
    requires Inv(s, LARGEST) && Run(s, steps, t)
    ensures CanExceed(s, steps) <==> SomeOverfull(s, steps)
    decreases |steps|
  {
    NotExceedingAlone(s);
    hide Inv, Apply, Enabled, Overfull, ExceedsAlone;
    if steps != [] {
      if Overfull(s, steps[0]) {
        OverfullExceeds(s, steps[0], LARGEST);
      } else {
        StepKeeps(s, steps[0], LARGEST);
        ExceedsExactlyFrom(Apply(s, steps[0]), steps[1..], t);
      }
    }
  }

  lemma NotExceedingAlone(s: State)
    requires Inv(s, LARGEST)
    ensures !ExceedsAlone(s)
  {
    forall more, t | AudioOnly(more) && Run(s, more, t)
      ensures t.device.queued <= LARGEST
    {
      AudioAloneNotOverfull(s, more);
      RunKeeps(s, more, t, LARGEST);
    }
  }

  /**
    When exactly 32 frames can be exceeded: a schedule can take the device above the largest
    target if and only if one of its ready calls accepts a packet that the device, looked at
    again at that moment, has no room for.
   */
  lemma DeviceBoundExactly(time: real, steps: seq<Step>, t: State)
    requires Run(Initial(time), steps, t)
    ensures CanExceed(Initial(time), steps) <==> SomeOverfull(Initial(time), steps)
  {
    ExceedsExactlyFrom(Initial(time), steps, t);
  }

  /** While everything is being buffered the device is empty, and the buffer stays in its allocation. */
  lemma BufferingMeansDry(time: real, steps: seq<Step>, t: State)
    requires Run(Initial(time), steps, t)
    ensures t.device.state == Playback.Buffering && !t.render.Flushed? ==> t.device.queued == 0
    ensures t.device.state == Playback.Playing ==> t.device.fill == 0
    ensures t.device.fill <= Playback.FILL_MAX
  {
    RunKeeps(Initial(time), steps, t, 34 * FRAME);
  }

  // ------------------------------------------------------------ lengths and bytes

  /** The lengths here are those of the byte streams in AudioPlayback. */
  ghost predicate Measures(d: Device, p: Playback.Playback) {
    d.state == p.state && d.fill == |p.kept|
  }

  /** The check, and the delivery of the next frame in its one or two queue operations. */
  function FrameDone(s: State): State
    requires s.render.Sent? && s.render.left > 0
  {
    var checked := s.(device := DryChecked(s.device), render := Checked(s.render.left));
    var t := Delivered(checked);
    if t.render.Flushed? then Completed(t) else t
  }

  /**
    One full-size frame, handled here on lengths and in AudioPlayback on bytes: the states and
    fills agree afterwards, and the device has grown by the bytes handed to the frontend.
   */
  lemma FrameLengths(s: State, p: Playback.Playback, data: seq<Playback.Byte>)
    requires s.render.Sent? && s.render.left > 0 && Measures(s.device, p) && |data| == FRAME
    ensures var q := Playback.Delivered(p, Playback.Decoded(data, s.device.queued == 0, Target(s.scaling)));
            var t := FrameDone(s);
            && Measures(t.device, q) && p.handed <= q.handed
            && t.device.queued == s.device.queued + |q.handed| - |p.handed|
            && t.render == Sent(s.render.left - 1)
  {}

  /** FrameDone is what the steps of the audio thread do. */
  lemma FrameSteps(s: State)
    requires s.render.Sent? && s.render.left > 0
    ensures var checked := Apply(s, Check);
            var t := Apply(checked, Deliver);
            FrameDone(s) == if t.render.Flushed? then Apply(t, Deliver) else t
  {}

  /** The start of a render agrees too: the same dry check, the same number of sends. */
  lemma BeginLengths(s: State, p: Playback.Playback)
    requires s.render.Waiting? && s.context.pending && Measures(s.device, p)
    ensures var q := Playback.DryChecked(p, s.device.queued == 0);
            var t := Apply(s, Begin(true));
            && Measures(t.device, q)
            && t.render == Sent(if s.context.command == Dup && q.state == Playback.Playing then 2 else 1)
  {}

  // ------------------------------------------------------------ what a ready call comes to

  /** The total length in frames that this call goes by. */
  function Total(s: State): real
    requires s.net.Rescaled?
  {
    Frames(s.net.len + s.net.waiting * FRAME)
  }

  /**
    A call that is ready takes the packet, if there is one. It is ready when the command is to
    drop, or when no frame is pending and the frames to come, two for a duplicate, leave the
    device at or below the target. A packet that is taken uses the command up, and becomes the
    pending frame unless it is dropped. Device and renderer are not touched.
   */
  lemma DecideExactly(s: State, packet: bool)
    requires Enabled(s, Decide(packet))
    ensures var t := Apply(s, Decide(packet));
            var coming := if s.queue.command == Dup then 2.0 else 1.0;
            var ready := s.queue.command == Drop
                         || (!s.context.pending && Frames(s.net.len) + coming <= 8.0 * s.scaling.scale);
            && t.device == s.device && t.render == s.render && t.scaling == s.scaling && t.net.Idle?
            && t.queue == (if ready && packet then s.queue.(command := Noop) else s.queue)
            && t.context == (if ready && packet && s.queue.command != Drop
                             then Context(true, s.queue.command) else s.context)
  {}

  /** While playing, a call overflows as the hysteresis says; while buffering, it also forgets its samples. */
  lemma {:induction false} ResampleOverflows(
    time: real, steps: seq<Step>, s: State, now: real, next: Sampling.Control)
    requires Run(Initial(time), steps, s) && Enabled(s, Resample(now, next))
    ensures var t := Apply(s, Resample(now, next));
            var scale := s.scaling.scale;
            && t.queue.overflowing ==
                 (if next.overflowing then Total(s) >= 8.0 * scale + 1.0 else Total(s) > 20.0 * scale)
            && t.queue.command == (if t.queue.overflowing then Drop else next.command)
            && next.overflowing == s.queue.overflowing
            && (s.device.state == Playback.Buffering ==> t.queue.samples == [])
  {
    RunKeeps(Initial(time), steps, s, 34 * FRAME);
    if s.device.state == Playback.Playing {
      KeepsFlag(s.queue, now, Total(s), Target(s.scaling), next);
    }
    hide SamplesTo;
  }

  lemma KeepsFlag(c: Sampling.Control, time: real, len: real, target: real, d: Sampling.Control)
    requires SamplesTo(c, time, len, target, d)
    ensures d.overflowing == c.overflowing
  {}

  /**
    An overflowing queue is drained: every call that finds it overflowing is ready, and the
    packet it gets leaves the pending frame, the device and the renderer as they were.
   */
  lemma {:induction false} OverflowDrains(time: real, steps: seq<Step>, s: State, now: real, next: Sampling.Control)
    requires Run(Initial(time), steps, s) && Enabled(s, Resample(now, next))
    requires Apply(s, Resample(now, next)).queue.overflowing && s.net.waiting > 0
    ensures var t := Apply(s, Resample(now, next));
            && Enabled(t, Decide(true))
            && var u := Apply(t, Decide(true));
               && u.context == s.context && u.device == s.device && u.render == s.render
               && u.queue == t.queue.(command := Noop) && u.net.Idle?
  {
    ResampleOverflows(time, steps, s, now, next);
    var t := Apply(s, Resample(now, next));
    DecideExactly(t, true);
  }
}
