/** What holds of the encoders, over every sequence of captures, requests and factory timings. */
module EncoderTheorems {
  import opened Wrappers
  import opened EncoderFactory

  // ---------------------------------------------------------------- the invariant

  /** The factory thread has stored an encoder that nobody uses yet. */
  predicate HasUnadopted(f: Factory) {
    f.pending && f.result.Some? && (f.finished || (f.outstanding > 0 && f.phase.ResultStored?))
  }

  ghost predicate FactoryOk(f: Factory) {
    && f.outstanding <= 1
    && (f.outstanding > 0 ==> f.pending && !f.finished)
    && (f.pending ==> f.finished || f.outstanding == 1)
    && (f.pending && (f.finished || f.phase.ResultStored?) ==> f.result.Some?)
  }

  /**
    The encoder in use and an unadopted one are different and alive; while one is pending
    the one in use is FFmpeg's.
   */
  ghost predicate PointersOk(s: State) {
    && (s.encoder.Some? ==> s.encoder.value < |s.encoders| && s.encoders[s.encoder.value].destroyCalls == 0)
    && (HasUnadopted(s.factory) ==>
          && s.factory.result.value < |s.encoders| && s.encoders[s.factory.result.value].destroyCalls == 0
          && s.encoder != s.factory.result)
    && (s.factory.pending ==> (s.encoder.Some? || s.place.Ended?) && !IsNvidia(s.encoders, s.encoder))
    && (s.place.CreatingHere? ==> !s.factory.pending)
  }

  /** Only those two can be a living NVIDIA encoder, and no encoder is destroyed twice. */
  ghost predicate EncodersOk(s: State) {
    forall e :: 0 <= e < |s.encoders| ==>
      && s.encoders[e].destroyCalls <= 1
      && (s.encoders[e].kind.Nvidia? && s.encoders[e].destroyCalls == 0 ==>
            s.encoder == Some(e) || (HasUnadopted(s.factory) && s.factory.result == Some(e)))
  }

  /** An encoder is in use wherever one is needed, or one is about to be made. */
  ghost predicate PlaceOk(s: State) {
    && !s.crashed
    && match s.place
       case Top => s.encoder.None? ==> !s.device
       case AwaitPending => true
       case Settings => s.encoder.None? ==> s.updateEncoder
       case Update => s.updateEncoder
       case CreatingHere => s.encoder.None?
       case Capture => s.encoder.Some?
       case Transfer => s.encoder.Some?
       case Leaving => true
       case Ended => true
  }

  /** There is a capture device inside the loop body. */
  ghost predicate DeviceOk(s: State) {
    s.place.Top? || s.place.Leaving? || s.place.Ended? || s.device
  }

  ghost predicate Inv(s: State) {
    FactoryOk(s.factory) && PointersOk(s) && EncodersOk(s) && PlaceOk(s) && DeviceOk(s)
  }

  lemma DeviceKeep(s: State, step: Step)
    requires DeviceOk(s) && Enabled(s, step)
    ensures DeviceOk(Apply(s, step))
  {}

  lemma FactoryKeep(s: State, step: Step)
    requires FactoryOk(s.factory) && PointersOk(s) && Enabled(s, step)
    ensures FactoryOk(Apply(s, step).factory)
  {}

  lemma PointersKeep(s: State, step: Step)
    requires FactoryOk(s.factory) && PointersOk(s) && PlaceOk(s) && Enabled(s, step)
    ensures PointersOk(Apply(s, step))
  {}

  lemma EncodersKeep(s: State, step: Step)
    requires FactoryOk(s.factory) && PointersOk(s) && EncodersOk(s) && PlaceOk(s) && Enabled(s, step)
    ensures EncodersOk(Apply(s, step))
  {}

  lemma PlaceKeep(s: State, step: Step)
    requires FactoryOk(s.factory) && PointersOk(s) && PlaceOk(s) && Enabled(s, step)
    ensures PlaceOk(Apply(s, step))
  {}

  lemma {:induction false} Reachable(s: State, steps: seq<Step>)
    requires Init(s) && Execute(s, steps).Some?
    ensures Inv(Execute(s, steps).value)
  {
    if steps != [] {
      hide Apply, Enabled, FactoryOk, PointersOk, EncodersOk, PlaceOk, DeviceOk;
      var init, step := steps[..|steps| - 1], steps[|steps| - 1];
      Reachable(s, init);
      var before := Execute(s, init).value;
      FactoryKeep(before, step);
      PointersKeep(before, step);
      EncodersKeep(before, step);
      PlaceKeep(before, step);
      DeviceKeep(before, step);
    }
  }

  // -------------------------------------------------------------------- theorems

  ghost predicate Reached(s: State, init: State, steps: seq<Step>) {
    Init(init) && Execute(init, steps) == Some(s)
  }

  predicate LivingNvidia(s: State, e: int) {
    0 <= e < |s.encoders| && s.encoders[e].kind.Nvidia? && s.encoders[e].destroyCalls == 0
  }

  /** Some thread is inside create_video_encoder. */
  predicate BeingCreated(s: State) {
    s.place.CreatingHere? || (s.factory.outstanding > 0 && s.factory.phase.Creating?)
  }

  /**
    At most one NVIDIA encoder is alive at any time, none while an encoder of
    whatever kind is being created, and never are two being created.
   */
  lemma OneNvidia(s: State, init: State, steps: seq<Step>)
    requires Reached(s, init, steps)
    ensures forall e, f :: LivingNvidia(s, e) && LivingNvidia(s, f) ==> e == f
    ensures BeingCreated(s) ==> forall e :: !LivingNvidia(s, e)
    ensures s.place.CreatingHere? ==> s.factory.outstanding == 0
    ensures s.factory.outstanding <= 1
  {
    Reachable(init, steps);
  }

  /** No encoder is destroyed twice, and none in use or waiting to be adopted has been destroyed. */
  lemma DestroyedAtMostOnce(s: State, init: State, steps: seq<Step>)
    requires Reached(s, init, steps)
    ensures forall e :: 0 <= e < |s.encoders| ==> s.encoders[e].destroyCalls <= 1
    ensures s.encoder.Some? ==> s.encoder.value < |s.encoders| && s.encoders[s.encoder.value].destroyCalls == 0
    ensures s.factory.pending && s.factory.finished ==>
              && s.factory.result.Some? && s.factory.result.value < |s.encoders|
              && s.encoders[s.factory.result.value].destroyCalls == 0 && s.factory.result != s.encoder
  {
    Reachable(init, steps);
  }

  /** transfer_capture is never given a NULL encoder. */
  lemma EncoderAtTransfer(s: State, init: State, steps: seq<Step>)
    requires Reached(s, init, steps)
    ensures !s.crashed && (s.place.Transfer? ==> s.encoder.Some?)
  {
    Reachable(init, steps);
  }
}
