/**
  The life of video encoders in the video thread of protocol/server/video.c:
  update_video_encoder, create_new_device, retry_capture_screen, and the detached
  factory thread that may build the next encoder meanwhile. Capture results,
  reconfiguration results, encoder kinds and timings are up to the schedule.
  Creation succeeds, since the code exits the process when it does not.
 */
module EncoderFactory {
  import opened Wrappers

  datatype Kind = Nvidia | Ffmpeg

  /** `destroyCalls` counts the calls of destroy_video_encoder, made or handed to a thread. */
  datatype Encoder = Encoder(kind: Kind, destroyCalls: nat)

  /** Where the video thread is. */
  datatype Place =
    | Top               // at the loop test
    | AwaitPending      // create_new_device: a device was created, a pending encoder is waited for
    | Settings          // network settings read
    | Update            // about to call update_video_encoder
    | CreatingHere      // running the factory function on this thread
    | Capture           // about to call capture_screen
    | Transfer          // about to call transfer_capture
    | Leaving           // past the loop, the encoder not yet destroyed
    | Ended

  /** The factory thread: before or after it has stored its result. */
  datatype FactoryPhase = Creating | ResultStored

  datatype Factory = Factory(
    outstanding: nat, phase: FactoryPhase,
    pending: bool, finished: bool, result: Option<nat>)

  datatype State = State(
    encoders: seq<Encoder>,     // every encoder ever created
    encoder: Option<nat>,       // the one in use; None is NULL
    factory: Factory,
    updateEncoder: bool, device: bool,
    place: Place,
    crashed: bool)              // transfer_capture was given NULL

  datatype Step =
    | CreateDevice(ok: bool)        // at Top without a device
    | KeepDevice                    // at Top with a device
    | WaitPending                   // one turn of the wait loop in create_new_device
    | ReadSettings(changed: bool)
    | UpdateEncoder(reconfigured: bool)
    | CreateHere(kind: Kind)
    | CaptureScreen(ok: bool, send: bool)
    | TransferCapture(ok: bool)
    | FactoryCreate(kind: Kind)     // the factory thread stores its result
    | FactoryFinish                 // and sets encoder_finished
    | LeaveLoop                     // the client lock is gone
    | Stop                          // the encoder in use is destroyed

  predicate Enabled(s: State, step: Step) {
    !s.crashed &&
    match step
    case CreateDevice(_) => s.place.Top? && !s.device
    case KeepDevice => s.place.Top? && s.device
    case WaitPending => s.place.AwaitPending?
    case ReadSettings(_) => s.place.Settings?
    case UpdateEncoder(_) => s.place.Update?
    case CreateHere(_) => s.place.CreatingHere?
    case CaptureScreen(_, _) => s.place.Capture?
    case TransferCapture(_) => s.place.Transfer?
    case FactoryCreate(_) => s.factory.outstanding > 0 && s.factory.phase.Creating?
    case FactoryFinish => s.factory.outstanding > 0 && s.factory.phase.ResultStored?
    case LeaveLoop => s.place.Top?
    case Stop => s.place.Leaving?
  }

  /** One call of destroy_video_encoder on the encoder in use. */
  function Destroyed(es: seq<Encoder>, e: Option<nat>): seq<Encoder> {
    if e.Some? && e.value < |es| then es[e.value := es[e.value].(destroyCalls := es[e.value].destroyCalls + 1)] else es
  }

  predicate IsNvidia(es: seq<Encoder>, e: Option<nat>) {
    e.Some? && e.value < |es| && es[e.value].kind.Nvidia?
  }

  /** update_video_encoder once reconfiguration has failed or was not possible. */
  function ReplaceEncoder(s: State): State {
    if s.factory.pending then
      if s.factory.finished then
        s.(encoders := Destroyed(s.encoders, s.encoder), encoder := s.factory.result,
           factory := s.factory.(pending := false), updateEncoder := false, place := Capture)
      else s.(place := Capture)
    else if s.encoder.None? then s.(factory := s.factory.(finished := false), place := CreatingHere)
    else if IsNvidia(s.encoders, s.encoder) then
      s.(encoders := Destroyed(s.encoders, s.encoder), encoder := None,
         factory := s.factory.(finished := false), place := CreatingHere)
    else
      s.(factory := Factory(s.factory.outstanding + 1, Creating, true, false, s.factory.result), place := Capture)
  }

  function Apply(s: State, step: Step): State
    requires Enabled(s, step)
  {
    match step
    case CreateDevice(ok) => if ok then s.(device := true, place := AwaitPending) else s
    case KeepDevice => s.(place := Settings)
    case WaitPending =>
      if !s.factory.pending then s.(updateEncoder := true, place := Settings)
      else if s.factory.finished then
        s.(encoder := s.factory.result, factory := s.factory.(pending := false),
           updateEncoder := true, place := Settings)
      else s
    case ReadSettings(changed) =>
      s.(updateEncoder := s.updateEncoder || changed, place := if s.updateEncoder || changed then Update else Capture)
    case UpdateEncoder(reconfigured) =>
      if s.encoder.Some? && reconfigured then s.(updateEncoder := false, place := Capture) else ReplaceEncoder(s)
    case CreateHere(kind) =>
      var e := Some(|s.encoders|);
      s.(encoders := s.encoders + [Encoder(kind, 0)], encoder := e,
         factory := s.factory.(result := e, finished := true, pending := false),
         updateEncoder := false, place := Capture)
    case CaptureScreen(ok, send) =>
      if ok then s.(place := if send then Transfer else Top)
      else if IsNvidia(s.encoders, s.encoder) then
        s.(encoders := Destroyed(s.encoders, s.encoder), encoder := None, device := false, place := Top)
      else s.(device := false, place := Top)
    case TransferCapture(ok) =>
      if s.encoder.None? then s.(crashed := true) else s.(place := if ok then Top else Leaving)
    case FactoryCreate(kind) =>
      s.(encoders := s.encoders + [Encoder(kind, 0)],
         factory := s.factory.(result := Some(|s.encoders|), phase := ResultStored))
    case FactoryFinish => s.(factory := s.factory.(finished := true, outstanding := s.factory.outstanding - 1))
    case LeaveLoop => s.(place := Leaving)
    case Stop => s.(encoders := Destroyed(s.encoders, s.encoder), encoder := None, place := Ended)
  }

  predicate Init(s: State) {
    && s.encoders == [] && s.encoder.None? && !s.device && s.place.Top? && !s.crashed
    && s.factory.outstanding == 0 && !s.factory.pending && !s.factory.finished && s.factory.result.None?
  }

  function Execute(s: State, steps: seq<Step>): Option<State> {
    if steps == [] then Some(s)
    else
      var before := Execute(s, steps[..|steps| - 1]);
      if before.Some? && Enabled(before.value, steps[|steps| - 1])
      then Some(Apply(before.value, steps[|steps| - 1]))
      else None
  }
}
