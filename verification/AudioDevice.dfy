/**
  How full the audio device can get (protocol/client/audio.cpp). The network thread asks
  audio_ready_for_frame and calls receive_audio; the audio thread runs render_audio; the
  device drains by itself. A step is one access to state the threads share. The scaling
  and queue-length controllers are those of AudioScaling and AudioSampling; times, packet
  arrivals and the number of packets waiting are up to the schedule, but a call that counts no
  packet gets none. Each packet sent to
  the decoder yields one full-size frame. Lengths are in bytes.
 */
module AudioDevice {
  import Scaling = AudioScaling
  import opened Sampling = AudioSampling
  import Playback = AudioPlayback

  const FRAME: nat := Playback.DECODED_BYTES_PER_FRAME

  /** The device queue, the rendering state and the fill of the buffering buffer. */
  datatype Device = Device(queued: nat, state: Playback.AudioState, fill: nat)

  /**
    The network thread inside audio_ready_for_frame. `len` is the device length it has
    read and `waiting` the number of packets ready for it, among them the one it would get;
    `busy` records whether a frame was pending at that moment.
   */
  datatype Net =
    | Idle
    | Asked(len: nat, waiting: nat, busy: bool)
    | Rescaled(len: nat, waiting: nat, busy: bool)
    | Resampled(len: nat, waiting: nat, busy: bool)

  /** The audio thread inside render_audio, with the number of frames still to decode. */
  datatype Render =
    | Waiting
    | Sent(left: nat)
    | Checked(left: nat)      // the dry check of the next frame is done
    | Flushed(left: nat)      // the buffer has been queued, the frame itself not yet

  datatype Context = Context(pending: bool, command: Command)

  datatype State = State(
    device: Device, net: Net, render: Render, context: Context,
    scaling: Scaling.Control, queue: Sampling.Control)

  datatype Step =
    | Drain(bytes: nat)
    | Ask(waiting: nat)
    | Rescale(time: real)
    | Resample(time: real, next: Sampling.Control)
    | Decide(packet: bool)
    | Begin(open: bool)
    | Check
    | Deliver
    | Finish

  function Frames(bytes: nat): real {
    bytes as real / FRAME as real
  }

  function Target(c: Scaling.Control): real {
    Scaling.TARGET_INITIAL * c.scale
  }

  function Limit(c: Scaling.Control): real {
    Scaling.OVERFLOW_INITIAL * c.scale
  }

  // ------------------------------------------------------------ the network thread

  /** The sampling part of audio_ready_for_frame, before overflow is looked at. */
  ghost predicate QueueTo(s: State, time: real, next: Sampling.Control)
    requires s.net.Rescaled?
  {
    if s.device.state == Playback.Playing
    then SamplesTo(s.queue, time, Frames(s.net.len + s.net.waiting * FRAME), Target(s.scaling), next)
    else next == s.queue.(samples := [])
  }

  function AfterOverflow(s: State, next: Sampling.Control): Sampling.Control
    requires s.net.Rescaled?
  {
    OverflowsTo(next, Frames(s.net.len + s.net.waiting * FRAME), Target(s.scaling), Limit(s.scaling))
  }

  /** The room test of audio_ready_for_frame. */
  predicate HasRoom(len: nat, command: Command, target: real) {
    len as real <= (target - (if command == Dup then 2.0 else 1.0)) * FRAME as real
  }

  predicate Ready(s: State)
    requires s.net.Resampled?
  {
    (!s.context.pending && HasRoom(s.net.len, s.queue.command, Target(s.scaling))) || s.queue.command == Drop
  }

  /** receive_audio */
  function Received(s: State): State {
    var t := s.(net := Idle, queue := s.queue.(command := Noop));
    if s.queue.command == Drop || s.context.pending then t
    else t.(context := Context(true, s.queue.command))
  }

  // ------------------------------------------------------------ the audio thread

  function DryChecked(d: Device): Device {
    if d.state == Playback.Playing && d.queued == 0 then d.(state := Playback.Buffering) else d
  }

  function Begun(s: State, open: bool): State {
    if !open then s.(render := Sent(0))
    else
      var d := DryChecked(s.device);
      s.(device := d, render := Sent(if s.context.command == Dup && d.state != Playback.Buffering then 2 else 1))
  }

  function Delivered(s: State): State
    requires s.render.Checked? && s.render.left > 0
  {
    var d := s.device;
    if d.state == Playback.Playing then
      s.(device := d.(queued := d.queued + FRAME), render := Sent(s.render.left - 1))
    else if Playback.Enough(d.fill + FRAME, Target(s.scaling)) then
      s.(device := d.(queued := d.queued + d.fill, fill := 0), render := Flushed(s.render.left))
    else
      s.(device := d.(fill := d.fill + FRAME), render := Sent(s.render.left - 1))
  }

  /** The frame that follows a flushed buffer. */
  function Completed(s: State): State
    requires s.render.Flushed? && s.render.left > 0
  {
    s.(device := s.device.(queued := s.device.queued + FRAME, state := Playback.Playing),
       render := Sent(s.render.left - 1))
  }

  // ------------------------------------------------------------ steps and runs

  ghost predicate Enabled(s: State, step: Step) {
    match step
    case Drain(bytes) => bytes <= s.device.queued
    case Ask(_) => s.net.Idle?
    case Rescale(_) => s.net.Asked?
    case Resample(time, next) => s.net.Rescaled? && QueueTo(s, time, next)
    case Decide(packet) => s.net.Resampled? && (packet ==> s.net.waiting > 0)
    case Begin(_) => s.render.Waiting? && s.context.pending
    case Check => s.render.Sent? && s.render.left > 0
    case Deliver => (s.render.Checked? || s.render.Flushed?) && s.render.left > 0
    case Finish => s.render.Sent? && s.render.left == 0
  }

  function Apply(s: State, step: Step): State
    requires Enabled(s, step)
  {
    match step
    case Drain(bytes) => s.(device := s.device.(queued := s.device.queued - bytes))
    case Ask(waiting) => s.(net := Asked(s.device.queued, waiting, s.context.pending))
    case Rescale(time) =>
      s.(net := Rescaled(s.net.len, s.net.waiting, s.net.busy),
         scaling := Scaling.Scaled(s.scaling, Frames(s.net.len), time))
    case Resample(_, next) =>
      s.(net := Resampled(s.net.len, s.net.waiting, s.net.busy), queue := AfterOverflow(s, next))
    case Decide(packet) => if Ready(s) && packet then Received(s) else s.(net := Idle)
    case Begin(open) => Begun(s, open)
    case Check => s.(device := DryChecked(s.device), render := Checked(s.render.left))
    case Deliver => if s.render.Flushed? then Completed(s) else Delivered(s)
    case Finish => s.(render := Waiting, context := s.context.(pending := false))
  }

  function Initial(time: real): State {
    State(Device(0, Playback.Buffering, 0), Idle, Waiting, Context(false, Noop),
          Scaling.Started(time), Sampling.Control([], 0.0, false, Noop))
  }

  /** The steps lead from `s` to `t`. */
  ghost predicate Run(s: State, steps: seq<Step>, t: State)
    decreases |steps|
  {
    if steps == [] then s == t
    else Enabled(s, steps[0]) && Run(Apply(s, steps[0]), steps[1..], t)
  }

  /** A render completed between the length read and the flag read of this call. */
  predicate Straddles(s: State, step: Step) {
    step.Decide? && s.net.Resampled? && s.net.busy && !s.context.pending
  }

  ghost predicate SomeStraddle(s: State, steps: seq<Step>)
    decreases |steps|
  {
    && steps != [] && Enabled(s, steps[0])
    && (Straddles(s, steps[0]) || SomeStraddle(Apply(s, steps[0]), steps[1..]))
  }

  const LARGEST: nat := 32 * FRAME

  /** The call accepts a packet although the device, as it is now, has no room for it at any target. */
  predicate Overfull(s: State, step: Step) {
    && step == Decide(true) && s.net.Resampled? && Ready(s) && s.queue.command != Drop && !s.context.pending
    && s.device.state == Playback.Playing
    && s.device.queued + (if s.queue.command == Dup then 2 else 1) * FRAME > LARGEST
  }

  ghost predicate SomeOverfull(s: State, steps: seq<Step>)
    decreases |steps|
  {
    && steps != [] && Enabled(s, steps[0])
    && (Overfull(s, steps[0]) || SomeOverfull(Apply(s, steps[0]), steps[1..]))
  }

  /** Steps of the audio thread alone. */
  predicate AudioOnly(steps: seq<Step>) {
    forall k :: 0 <= k < |steps| ==> steps[k].Begin? || steps[k].Check? || steps[k].Deliver? || steps[k].Finish?
  }

  /** At some point of the schedule the audio thread, left to itself, would fill the device above the largest target. */
  ghost predicate CanExceed(s: State, steps: seq<Step>)
    decreases |steps|
  {
    || ExceedsAlone(s)
    || (steps != [] && Enabled(s, steps[0]) && CanExceed(Apply(s, steps[0]), steps[1..]))
  }

  ghost predicate ExceedsAlone(s: State) {
    exists more, t :: AudioOnly(more) && Run(s, more, t) && t.device.queued > LARGEST
  }
}
