/**
  The hand-over of frames on the client: the network thread
  (multithreaded_sync_udp_packets in protocol/client/sync_packets.cpp), the video and
  the audio renderer threads (protocol/client/renderer.c), the `pending_render_context`
  flags (protocol/client/audio.cpp, protocol/client/video.cpp) and two semaphores.
  The adjust command and the room in the device come from the controllers and are up
  to the schedule here. Reaching a "wasn't ready" branch sets `error`.
 */
module RenderHandoff {
  import opened Wrappers

  datatype Command = Noop | Drop | Dup

  /** The network thread. */
  datatype Net =
    | AskVideo
    | VideoWanted           // video_ready_for_frame was true
    | VideoPostDue          // receive_video done, video_semaphore not yet posted
    | AskAudio
    | AudioWanted           // audio_ready_for_frame was true
    | AudioPostDue

  /** The video thread. `timed`: it waits with a timeout because a render is still pending. */
  datatype Video = VideoWait(timed: bool) | VideoWoken | VideoReading | VideoDecoding | VideoAfter(ret: int) | NotifyDue

  datatype Audio = AudioWait | AudioWoken | FlagSeen | Rendering(frame: int)

  /** One pending_render_context with the frame it announces. */
  datatype Context = Context(pending: bool, frame: int)

  datatype State = State(
    net: Net, video: Video, audio: Audio,
    videoCtx: Context, audioCtx: Context, command: Command,
    videoSem: nat, audioSem: nat,
    videoRendered: bool,       // has_video_rendered_yet of the video context
    notified: bool,            // has_video_rendered_yet of the renderer
    error: bool,
    accepted: seq<int>,        // history: audio frames put into the render context
    rendered: seq<int>,        // history: audio frames rendered
    received: seq<int>,        // history: video frames put into the render context
    consumed: seq<int>)        // history: video frames handed to the decoder

  datatype Step =
    | WantVideo(packet: bool)              // ask, and see whether a packet is there
    | ReceiveVideo(frame: int)
    | PostVideo
    | WantAudio(command: Command, room: bool, packet: bool)
    | ReceiveAudio(frame: int)
    | PostAudio
    | WakeVideo(timeout: bool)
    | ReadVideo                            // look at the flag
    | ConsumeVideo(failed: bool)           // the frame is consumed; the decoder may refuse it
    | Decode(ret: int, shown: bool)        // the rest of render_video
    | FinishVideo                          // look at its result
    | Notify
    | WakeAudio
    | CheckVideo
    | BeginAudio
    | EndAudio

  predicate Enabled(s: State, step: Step) {
    match step
    case WantVideo(_) => s.net.AskVideo?
    case ReceiveVideo(_) => s.net.VideoWanted?
    case PostVideo => s.net.VideoPostDue?
    case WantAudio(_, _, _) => s.net.AskAudio?
    case ReceiveAudio(_) => s.net.AudioWanted?
    case PostAudio => s.net.AudioPostDue?
    case WakeVideo(timeout) => s.video.VideoWait? && (if timeout then s.video.timed else s.videoSem > 0)
    case ReadVideo => s.video.VideoWoken?
    case ConsumeVideo(_) => s.video.VideoReading?
    case Decode(_, _) => s.video.VideoDecoding?
    case FinishVideo => s.video.VideoAfter?
    case Notify => s.video.NotifyDue?
    case WakeAudio => s.audio.AudioWait? && s.audioSem > 0
    case CheckVideo => s.audio.AudioWoken?
    case BeginAudio => s.audio.FlagSeen?
    case EndAudio => s.audio.Rendering?
  }

  function Apply(s: State, step: Step): State
    requires Enabled(s, step)
  {
    match step
    case WantVideo(packet) => s.(net := if !s.videoCtx.pending && packet then VideoWanted else AskAudio)
    case ReceiveVideo(f) =>
      if s.videoCtx.pending then s.(net := VideoPostDue, error := true)
      else s.(net := VideoPostDue, videoCtx := Context(true, f), received := s.received + [f])
    case PostVideo => s.(net := AskAudio, videoSem := s.videoSem + 1)
    case WantAudio(c, room, packet) =>
      s.(command := c, net := if ((!s.audioCtx.pending && room) || c.Drop?) && packet then AudioWanted else AskVideo)
    case ReceiveAudio(f) =>
      if s.command.Drop? then s.(net := AudioPostDue, command := Noop)
      else if s.audioCtx.pending then s.(net := AudioPostDue, command := Noop, error := true)
      else s.(net := AudioPostDue, command := Noop, audioCtx := Context(true, f), accepted := s.accepted + [f])
    case PostAudio => s.(net := AskVideo, audioSem := s.audioSem + 1)
    case WakeVideo(timeout) => s.(video := VideoWoken, videoSem := if timeout then s.videoSem else s.videoSem - 1)
    case ReadVideo => s.(video := if s.videoCtx.pending then VideoReading else VideoDecoding)
    case ConsumeVideo(failed) =>
      s.(video := if failed then VideoAfter(-1) else VideoDecoding, videoCtx := s.videoCtx.(pending := false),
         consumed := s.consumed + [s.videoCtx.frame])
    case Decode(ret, shown) =>
      s.(video := VideoAfter(ret), videoRendered := s.videoRendered || (shown && ret == 0))
    case FinishVideo =>
      if s.video.ret == 1 then s.(video := VideoWait(true))
      else if s.videoRendered && !s.notified then s.(video := NotifyDue, notified := true)
      else s.(video := VideoWait(false))
    case Notify => s.(video := VideoWait(false), audioSem := s.audioSem + 1)
    case WakeAudio => s.(audio := AudioWoken, audioSem := s.audioSem - 1)
    case CheckVideo => s.(audio := if s.notified then FlagSeen else AudioWait)
    case BeginAudio => s.(audio := if s.audioCtx.pending then Rendering(s.audioCtx.frame) else AudioWait)
    case EndAudio =>
      s.(audio := AudioWait, audioCtx := s.audioCtx.(pending := false), rendered := s.rendered + [s.audio.frame])
  }

  predicate Init(s: State) {
    && s.net.AskVideo? && s.video == VideoWait(false) && s.audio.AudioWait?
    && !s.videoCtx.pending && !s.audioCtx.pending && s.videoSem == 0 && s.audioSem == 0
    && !s.videoRendered && !s.notified && !s.error
    && s.accepted == [] && s.rendered == [] && s.received == [] && s.consumed == []
  }

  function Execute(s: State, steps: seq<Step>): Option<State> {
    if steps == [] then Some(s)
    else
      var before := Execute(s, steps[..|steps| - 1]);
      if before.Some? && Enabled(before.value, steps[|steps| - 1])
      then Some(Apply(before.value, steps[|steps| - 1]))
      else None
  }
}
