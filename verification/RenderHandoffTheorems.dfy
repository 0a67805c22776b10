/** What the hand-over of frames to the renderers guarantees, under every interleaving. */
module RenderHandoffTheorems {
  import opened Wrappers
  import opened RenderHandoff

  // ---------------------------------------------------------------- the invariant

  /** The network thread only goes on to receive when the old frame is done with. */
  ghost predicate NetOk(s: State) {
    && !s.error
    && (s.net.VideoWanted? ==> !s.videoCtx.pending)
    && (s.net.AudioWanted? && !s.command.Drop? ==> !s.audioCtx.pending)
    && (s.video.VideoReading? ==> s.videoCtx.pending)
    && (s.audio.Rendering? ==> s.audioCtx.pending && s.audio.frame == s.audioCtx.frame)
  }

  /** Whoever announces a frame, or the first video, leaves a post that wakes the thread concerned. */
  ghost predicate Awake(s: State) {
    && (s.audioCtx.pending && s.notified ==>
          s.audioSem > 0 || s.net.AudioPostDue? || s.video.NotifyDue? || !s.audio.AudioWait?)
    && (s.videoCtx.pending ==>
          || s.videoSem > 0 || s.net.VideoPostDue?
          || s.video == VideoWait(true) || s.video.VideoWoken? || s.video.VideoReading?)
  }

  /** Audio frames are rendered once each, in the order they were accepted; only a pending one is missing. */
  ghost predicate InOrder(s: State) {
    s.accepted == if s.audioCtx.pending then s.rendered + [s.audioCtx.frame] else s.rendered
  }

  /** Video frames go to the decoder once each, in the order they were received; only a pending one is missing. */
  ghost predicate VideoOrder(s: State) {
    s.received == if s.videoCtx.pending then s.consumed + [s.videoCtx.frame] else s.consumed
  }

  /** From the first frame shown to the renderer's flag, the video thread is on its way to set it. */
  ghost predicate FlagDue(s: State) {
    s.videoRendered && !s.notified ==> s.video == VideoAfter(0)
  }

  ghost predicate Inv(s: State) {
    NetOk(s) && Awake(s) && InOrder(s) && VideoOrder(s) && FlagDue(s)
  }

  lemma NetKeeps(s: State, step: Step)
    requires NetOk(s) && Enabled(s, step)
    ensures NetOk(Apply(s, step))
  {}

  lemma AwakeKeeps(s: State, step: Step)
    requires Awake(s) && Enabled(s, step)
    ensures Awake(Apply(s, step))
  {}

  lemma OrderKeeps(s: State, step: Step)
    requires NetOk(s) && InOrder(s) && VideoOrder(s) && Enabled(s, step)
    ensures InOrder(Apply(s, step)) && VideoOrder(Apply(s, step))
  {}

  lemma FlagKeeps(s: State, step: Step)
    requires FlagDue(s) && Enabled(s, step)
    ensures FlagDue(Apply(s, step))
  {}

  lemma StepKeeps(s: State, step: Step)
    requires Inv(s) && Enabled(s, step)
    ensures Inv(Apply(s, step))
  {
    hide Apply, Enabled, NetOk, Awake, InOrder, VideoOrder, FlagDue;
    NetKeeps(s, step);
    AwakeKeeps(s, step);
    OrderKeeps(s, step);
    FlagKeeps(s, step);
  }

  lemma {:induction false} Reachable(s: State, steps: seq<Step>)
    requires Init(s) && Execute(s, steps).Some?
    ensures Inv(Execute(s, steps).value)
  {
    if steps != [] {
      hide Apply, Enabled, Inv;
      Reachable(s, steps[..|steps| - 1]);
      StepKeeps(Execute(s, steps[..|steps| - 1]).value, steps[|steps| - 1]);
    }
  }

  // -------------------------------------------------------------------- theorems

  ghost predicate Reached(s: State, init: State, steps: seq<Step>) {
    Init(init) && Execute(init, steps) == Some(s)
  }

  /** A post of the audio semaphore is still to come from the network or the video thread. */
  predicate PostToAudioDue(s: State) {
    || s.net.AudioPostDue?
    || s.video.NotifyDue?
    || (s.video == VideoAfter(0) && s.videoRendered && !s.notified)
  }

  /**
    A received audio frame is never stranded once video has been rendered, nor a video frame
    at any time: a thread with a frame pending is not blocked unless a post is due.
   */
  lemma NeverStranded(s: State, init: State, steps: seq<Step>)
    requires Reached(s, init, steps)
    ensures !(s.audioCtx.pending && s.videoRendered && s.audioSem == 0 && s.audio.AudioWait? && !PostToAudioDue(s))
    ensures !(s.videoCtx.pending && s.videoSem == 0 && s.video == VideoWait(false) && !s.net.VideoPostDue?)
  {
    Reachable(init, steps);
  }

  /** The post that is due between the first frame shown and the renderer's flag: two steps of the video thread. */
  lemma FirstVideoPosts(s: State, init: State, steps: seq<Step>)
    requires Reached(s, init, steps) && s.videoRendered && !s.notified
    ensures Enabled(s, FinishVideo) && Enabled(Apply(s, FinishVideo), Notify)
    ensures Apply(Apply(s, FinishVideo), Notify).audioSem == s.audioSem + 1
  {
    Reachable(init, steps);
  }

  /** The "wasn't ready" branches are unreachable, so no pending frame is ever overwritten. */
  lemma AlwaysReady(s: State, init: State, steps: seq<Step>)
    requires Reached(s, init, steps)
    ensures !s.error
    ensures s.net.VideoWanted? ==> !s.videoCtx.pending
    ensures s.net.AudioWanted? && !s.command.Drop? ==> !s.audioCtx.pending
  {
    Reachable(init, steps);
  }

  /** Every accepted audio frame is rendered exactly once and in order; at most the pending one is outstanding. */
  lemma AudioInOrder(s: State, init: State, steps: seq<Step>)
    requires Reached(s, init, steps)
    ensures s.accepted == if s.audioCtx.pending then s.rendered + [s.audioCtx.frame] else s.rendered
  {
    Reachable(init, steps);
  }

  /** Every received video frame is handed to the decoder exactly once and in order. */
  lemma VideoInOrder(s: State, init: State, steps: seq<Step>)
    requires Reached(s, init, steps)
    ensures s.received == if s.videoCtx.pending then s.consumed + [s.videoCtx.frame] else s.consumed
  {
    Reachable(init, steps);
  }

  /** Audio is silent until video has been rendered. */
  lemma NoAudioBeforeVideo(s: State, init: State, steps: seq<Step>)
    requires Reached(s, init, steps)
    ensures s.rendered != [] ==> s.videoRendered
  {
    SilentKeeps(init, steps);
  }

  ghost predicate Silent(t: State) {
    && (t.notified ==> t.videoRendered)
    && ((t.rendered != [] || t.audio.FlagSeen? || t.audio.Rendering?) ==> t.notified)
  }

  lemma SilentStep(s: State, step: Step)
    requires Silent(s) && Enabled(s, step)
    ensures Silent(Apply(s, step))
  {}

  lemma {:induction false} SilentKeeps(s: State, steps: seq<Step>)
    requires Init(s) && Execute(s, steps).Some?
    ensures Silent(Execute(s, steps).value)
  {
    if steps != [] {
      hide Apply, Enabled, Silent;
      SilentKeeps(s, steps[..|steps| - 1]);
      SilentStep(Execute(s, steps[..|steps| - 1]).value, steps[|steps| - 1]);
    }
  }

  // ------------------------------------------------------------------ nothing is lost

  /** The audio frames that a schedule brings while no drop is commanded. */
  function AudioBrought(s: State, steps: seq<Step>): seq<int> {
    if steps == [] then []
    else
      var before, last := Execute(s, steps[..|steps| - 1]), steps[|steps| - 1];
      AudioBrought(s, steps[..|steps| - 1])
      + if last.ReceiveAudio? && before.Some? && before.value.command != Drop then [last.frame] else []
  }

  /** The video frames that a schedule brings. */
  function VideoBrought(steps: seq<Step>): seq<int> {
    if steps == [] then []
    else
      var last := steps[|steps| - 1];
      VideoBrought(steps[..|steps| - 1]) + if last.ReceiveVideo? then [last.frame] else []
  }

  lemma StepBrings(s: State, step: Step)
    requires NetOk(s) && Enabled(s, step)
    ensures var t := Apply(s, step);
            && t.accepted == s.accepted + (if step.ReceiveAudio? && s.command != Drop then [step.frame] else [])
            && t.received == s.received + (if step.ReceiveVideo? then [step.frame] else [])
  {}

  /** Every frame the network thread brings is put into the render context, except audio it has been told to drop. */
  lemma {:induction false} AllBroughtAreAccepted(s: State, steps: seq<Step>)
    requires Init(s) && Execute(s, steps).Some?
    ensures var t := Execute(s, steps).value;
            t.accepted == AudioBrought(s, steps) && t.received == VideoBrought(steps)
  {
    if steps != [] {
      var before := steps[..|steps| - 1];
      AllBroughtAreAccepted(s, before);
      Reachable(s, before);
      hide Apply, Enabled, NetOk;
      StepBrings(Execute(s, before).value, steps[|steps| - 1]);
    }
  }

  /** When the network thread goes on to receive a frame. */
  lemma WantsExactly(s: State, command: Command, room: bool, packet: bool)
    ensures s.net.AskVideo? ==>
              (Apply(s, WantVideo(packet)).net.VideoWanted? <==> packet && !s.videoCtx.pending)
    ensures s.net.AskAudio? ==>
              var t := Apply(s, WantAudio(command, room, packet));
              && (t.net.AudioWanted? <==> packet && (command == Drop || (room && !s.audioCtx.pending)))
              && t.command == command
  {}
}
