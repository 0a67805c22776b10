/** What every step of the audio device machine keeps. */
module AudioDeviceProofs {
  import Scaling = AudioScaling
  import opened Sampling = AudioSampling
  import Playback = AudioPlayback
  import opened AudioDevice

  // ------------------------------------------------------------ the invariant

  /** Frames the current packet will still bring. */
  function Coming(r: Render, c: Context): nat {
    match r
    case Waiting => if !c.pending then 0 else if c.command == Dup then 2 else 1
    case Sent(left) => left
    case Checked(left) => left
    case Flushed(left) => left
  }

  /** The device holds back: everything goes to the buffer. */
  predicate Holding(d: Device, r: Render) {
    d.state == Playback.Buffering && !r.Flushed?
  }

  ghost predicate RenderOk(d: Device, r: Render, c: Context) {
    && (!r.Waiting? ==> c.pending)
    && (!r.Waiting? ==> r.left <= 2)
    && (r.Checked? ==> r.left > 0)
    && (r.Flushed? ==> r.left == 1)
    && (!r.Waiting? && r.left == 2 && Holding(d, r) ==> d.fill == 0)
  }

  ghost predicate DeviceOk(d: Device, r: Render) {
    && (Holding(d, r) ==> d.queued == 0)
    && (!Holding(d, r) ==> d.fill == 0)
    && (r.Flushed? ==> d.state == Playback.Buffering)
    && d.fill <= 31 * FRAME
  }

  ghost predicate Within(d: Device, r: Render, c: Context, cap: nat) {
    !Holding(d, r) ==> d.queued + Coming(r, c) * FRAME <= cap
  }

  /** What the network thread's reading still says about the device. */
  ghost predicate ReadingOk(d: Device, n: Net, r: Render, c: Context) {
    if n.Idle? then true
    else if !n.busy then !c.pending && d.queued <= n.len
    else
      || Holding(d, r)
      || d.queued + Coming(r, c) * FRAME <= n.len + 2 * FRAME
      || d.queued + Coming(r, c) * FRAME <= 32 * FRAME
  }

  ghost predicate ScaleOk(c: Scaling.Control) {
    Scaling.SCALE_MIN <= c.scale <= Scaling.SCALE_MAX
  }

  ghost predicate Inv(s: State, cap: nat) {
    && RenderOk(s.device, s.render, s.context)
    && DeviceOk(s.device, s.render)
    && Within(s.device, s.render, s.context, cap)
    && ReadingOk(s.device, s.net, s.render, s.context)
    && ScaleOk(s.scaling)
  }

  lemma NetKeeps(s: State, step: Step, cap: nat)
    requires Inv(s, cap) && Enabled(s, step) && (step.Ask? || step.Rescale? || step.Resample?)
    ensures Inv(Apply(s, step), cap)
  {
    if step.Rescale? {
      Scaling.ScaleInRange(s.scaling, Frames(s.net.len), step.time);
    }
    hide Scaling.Scaled;
  }

  lemma DecideKeeps(s: State, packet: bool, cap: nat)
    requires Inv(s, cap) && Enabled(s, Decide(packet))
    requires cap == 34 * FRAME || (cap == LARGEST && !Overfull(s, Decide(packet)))
    ensures Inv(Apply(s, Decide(packet)), cap)
  {}

  lemma BeginKeeps(s: State, step: Step, cap: nat)
    requires Inv(s, cap) && Enabled(s, step) && (step.Drain? || step.Begin? || step.Check? || step.Finish?)
    ensures Inv(Apply(s, step), cap)
  {}

  lemma DeliverKeeps(s: State, cap: nat)
    requires Inv(s, cap) && Enabled(s, Deliver) && cap >= 32 * FRAME
    ensures Inv(Apply(s, Deliver), cap)
  {}

  lemma StepKeeps(s: State, step: Step, cap: nat)
    requires Inv(s, cap) && Enabled(s, step)
    requires cap == 34 * FRAME || (cap == LARGEST && !Overfull(s, step))
    ensures Inv(Apply(s, step), cap)
  {
    hide Inv, Apply, Enabled;
    match step
    case Ask(_) => NetKeeps(s, step, cap);
    case Rescale(_) => NetKeeps(s, step, cap);
    case Resample(_, _) => NetKeeps(s, step, cap);
    case Decide(packet) => DecideKeeps(s, packet, cap);
    case Deliver => DeliverKeeps(s, cap);
    case _ => BeginKeeps(s, step, cap);
  }

  lemma {:induction false} RunKeeps(s: State, steps: seq<Step>, t: State, cap: nat)
    requires Inv(s, cap) && Run(s, steps, t)
    requires cap == 34 * FRAME || (cap == LARGEST && !SomeOverfull(s, steps))
    ensures Inv(t, cap)
    decreases |steps|
  {
    hide Inv, Apply, Enabled;
    if steps != [] {
      StepKeeps(s, steps[0], cap);
      RunKeeps(Apply(s, steps[0]), steps[1..], t, cap);
    }
  }

  /** One more step at the end of a run. */
  lemma {:induction false} RunOn(s: State, steps: seq<Step>, t: State, step: Step)
    requires Run(s, steps, t) && Enabled(t, step)
    ensures Run(s, steps + [step], Apply(t, step))
    decreases |steps|
  {
    hide Enabled, Apply;
    if steps == [] {
      assert Run(Apply(t, step), [], Apply(t, step));
      assert [step][1..] == [];
    } else {
      RunOn(Apply(s, steps[0]), steps[1..], t, step);
      assert (steps + [step])[1..] == steps[1..] + [step];
    }
  }
}
