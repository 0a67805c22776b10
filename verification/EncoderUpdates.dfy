/**
  What update_video_encoder, create_new_device and the encoder factory of
  protocol/server/video.c achieve: every request to update the encoder is served, in place,
  at once, or by an encoder that was created after the request.
 */
module EncoderUpdates {
  import opened Wrappers
  import opened EncoderFactory
  import opened EncoderTheorems

  predicate Alive(s: State, e: Option<nat>) {
    e.Some? && e.value < |s.encoders| && s.encoders[e.value].destroyCalls == 0
  }

  /** The encoder with this number has been destroyed, once. */
  predicate DestroyedOnce(s: State, e: Option<nat>) {
    e.Some? && e.value < |s.encoders| && s.encoders[e.value].destroyCalls == 1
  }

  // ------------------------------------------------------------ one call

  /** The encoder is updated exactly when a request is open or the network settings have changed. */
  lemma ChangeAsks(s: State, init: State, steps: seq<Step>, changed: bool)
    requires Reached(s, init, steps) && s.place.Settings?
    ensures Enabled(s, ReadSettings(changed))
    ensures var t := Apply(s, ReadSettings(changed));
            && (t.place.Update? <==> changed || s.updateEncoder) && (t.place.Update? ==> t.updateEncoder)
            && (!t.place.Update? ==> t.place.Capture?) && t.encoder == s.encoder
  {
    Reachable(init, steps);
  }

  /** An encoder that can be reconfigured stays in use, and the request is served. */
  lemma ReconfiguredInPlace(s: State, init: State, steps: seq<Step>)
    requires Reached(s, init, steps) && s.place.Update? && s.encoder.Some?
    ensures Enabled(s, UpdateEncoder(true))
    ensures var t := Apply(s, UpdateEncoder(true));
            t.encoder == s.encoder && t.encoders == s.encoders && !t.updateEncoder && t.place.Capture?
  {
    Reachable(init, steps);
  }

  /**
    When the factory has finished, its encoder is adopted: it is the one in use, alive, the old
    one has been destroyed once, and neither a pending encoder nor a request is left.
   */
  lemma FinishedIsAdopted(s: State, init: State, steps: seq<Step>)
    requires Reached(s, init, steps) && s.place.Update? && s.factory.pending && s.factory.finished
    ensures Enabled(s, UpdateEncoder(false)) && s.factory.result.Some? && s.encoder.Some?
    ensures var t := Apply(s, UpdateEncoder(false));
            && t.encoder == s.factory.result && Alive(t, t.encoder) && DestroyedOnce(t, s.encoder)
            && !t.factory.pending && !t.updateEncoder && t.place.Capture?
  {
    Reachable(init, steps);
  }

  /** While the factory is still at work the old encoder stays in use and the request open. */
  lemma UnfinishedIsAwaited(s: State, init: State, steps: seq<Step>)
    requires Reached(s, init, steps) && s.place.Update? && s.factory.pending && !s.factory.finished
    ensures Enabled(s, UpdateEncoder(false))
    ensures var t := Apply(s, UpdateEncoder(false));
            && t.encoder == s.encoder && Alive(t, t.encoder) && t.encoders == s.encoders
            && t.factory == s.factory && t.updateEncoder && t.place.Capture?
  {
    Reachable(init, steps);
  }

  /**
    Otherwise an NVIDIA encoder is destroyed first and the next one made at once, on this
    thread; so is the first one of all. An FFmpeg encoder stays in use while the factory is
    started.
   */
  lemma NextIsStarted(s: State, init: State, steps: seq<Step>, kind: Kind)
    requires Reached(s, init, steps) && s.place.Update? && !s.factory.pending
    ensures Enabled(s, UpdateEncoder(false))
    ensures var t := Apply(s, UpdateEncoder(false));
            if s.encoder.None? || IsNvidia(s.encoders, s.encoder) then
              && (s.encoder.Some? ==> DestroyedOnce(t, s.encoder))
              && Enabled(t, CreateHere(kind))
              && var u := Apply(t, CreateHere(kind));
                 && u.encoder == Some(|s.encoders|) && Alive(u, u.encoder) && u.encoders[|s.encoders|].kind == kind
                 && !u.updateEncoder && !u.factory.pending && u.place.Capture?
            else
              && t.encoder == s.encoder && Alive(t, t.encoder)
              && t.factory.pending && t.factory.outstanding == 1 && t.factory.phase.Creating?
              && t.updateEncoder && t.place.Capture?
  {
    Reachable(init, steps);
  }

  /**
    With a new capture device a finished encoder is taken over, an unfinished one waited for,
    and an update requested.
   */
  lemma NewDeviceTakesOver(s: State, init: State, steps: seq<Step>)
    requires Reached(s, init, steps) && s.place.AwaitPending?
    ensures Enabled(s, WaitPending)
    ensures var t := Apply(s, WaitPending);
            if s.factory.pending && !s.factory.finished then t == s
            else
              && t.updateEncoder && t.place.Settings? && !t.factory.pending
              && (if s.factory.pending then t.encoder == s.factory.result && Alive(t, t.encoder)
                  else t.encoder == s.encoder)
  {
    Reachable(init, steps);
  }

  /** A failed capture closes the device, and with it an NVIDIA encoder; an FFmpeg one stays. */
  lemma FailedCapture(s: State, init: State, steps: seq<Step>, send: bool)
    requires Reached(s, init, steps) && s.place.Capture?
    ensures Enabled(s, CaptureScreen(false, send))
    ensures var t := Apply(s, CaptureScreen(false, send));
            && !t.device && t.place.Top? && Enabled(t, CreateDevice(true))
            && (if IsNvidia(s.encoders, s.encoder) then t.encoder.None? && DestroyedOnce(t, s.encoder)
                else t.encoder == s.encoder && t.encoders == s.encoders)
  {
    Reachable(init, steps);
  }

  /** The encoder in use does not outlive the loop. */
  lemma StopDestroys(s: State, init: State, steps: seq<Step>)
    requires Reached(s, init, steps) && s.place.Leaving?
    ensures Enabled(s, Stop)
    ensures var t := Apply(s, Stop); t.encoder.None? && (s.encoder.Some? ==> DestroyedOnce(t, s.encoder))
  {
    Reachable(init, steps);
  }

  // ------------------------------------------------------------ a refused request

  /** The steps lead from `s` to `t` with an encoder pending all the while. */
  ghost predicate PendingRun(s: State, steps: seq<Step>, t: State)
    decreases |steps|
  {
    && s.factory.pending
    && if steps == [] then s == t
       else Enabled(s, steps[0]) && PendingRun(Apply(s, steps[0]), steps[1..], t)
  }

  /** Whatever the factory has stored was created after the first `n` encoders. */
  ghost predicate PendingIsNew(s: State, n: nat) {
    && n <= |s.encoders|
    && (HasUnadopted(s.factory) ==> s.factory.result.value >= n)
    && FactoryOk(s.factory)
  }

  lemma PendingStaysNew(s: State, step: Step, n: nat)
    requires PendingIsNew(s, n) && Enabled(s, step) && s.factory.pending && Apply(s, step).factory.pending
    requires s.place.CreatingHere? ==> !s.factory.pending
    ensures PendingIsNew(Apply(s, step), n)
  {}

  lemma ReachedNext(s: State, init: State, steps: seq<Step>, step: Step)
    requires Reached(s, init, steps) && Enabled(s, step)
    ensures Reached(Apply(s, step), init, steps + [step])
  {
    assert (steps + [step])[..|steps|] == steps;
    hide Apply, Enabled;
  }

  lemma {:induction false} PendingRunIsNew(s: State, init: State, steps: seq<Step>, more: seq<Step>, t: State, n: nat)
    requires Reached(s, init, steps) && PendingRun(s, more, t) && PendingIsNew(s, n)
    ensures Reached(t, init, steps + more) && PendingIsNew(t, n) && t.factory.pending
    decreases |more|
  {
    hide Reached, Apply, Enabled, PendingIsNew;
    if more == [] {
      assert steps + more == steps;
    } else {
      assert Apply(s, more[0]).factory.pending;
      PendingStep(s, init, steps, more[0], n);
      PendingRunIsNew(Apply(s, more[0]), init, steps + [more[0]], more[1..], t, n);
      Regrouped(steps, more);
    }
  }

  lemma PendingStep(s: State, init: State, steps: seq<Step>, step: Step, n: nat)
    requires Reached(s, init, steps) && Enabled(s, step) && PendingIsNew(s, n)
    requires s.factory.pending && Apply(s, step).factory.pending
    ensures Reached(Apply(s, step), init, steps + [step]) && PendingIsNew(Apply(s, step), n)
  {
    ReachedNext(s, init, steps, step);
    Reachable(init, steps);
    hide Reached, Apply, Enabled, PendingIsNew, FactoryOk, EncodersOk, PlaceOk, DeviceOk;
    PendingStaysNew(s, step, n);
  }

  lemma Regrouped(steps: seq<Step>, more: seq<Step>)
    requires more != []
    ensures steps + [more[0]] + more[1..] == steps + more
  {}

  /**
    A request refused in place: whatever happens while the encoder that is then ordered is
    pending, the update that finds it finished puts an encoder into use that was created after
    the request, and destroys the one in use till then.
   */
  lemma {:induction false} AdoptedIsNew(s: State, init: State, steps: seq<Step>, more: seq<Step>, u: State)
    requires Reached(s, init, steps) && s.place.Update? && !s.factory.pending
    requires Enabled(s, UpdateEncoder(false)) && PendingRun(Apply(s, UpdateEncoder(false)), more, u)
    requires u.place.Update? && u.factory.finished
    ensures Enabled(u, UpdateEncoder(false))
    ensures var v := Apply(u, UpdateEncoder(false));
            && v.encoder.Some? && v.encoder.value >= |s.encoders| && Alive(v, v.encoder)
            && DestroyedOnce(v, u.encoder) && !v.updateEncoder && !v.factory.pending
  {
    Reachable(init, steps);
    var a := Apply(s, UpdateEncoder(false));
    ReachedNext(s, init, steps, UpdateEncoder(false));
    assert PendingIsNew(a, |s.encoders|);
    PendingRunIsNew(a, init, steps + [UpdateEncoder(false)], more, u, |s.encoders|);
    var now := steps + [UpdateEncoder(false)] + more;
    Reachable(init, now);
    FinishedIsAdopted(u, init, now);
  }

  /** The run in which the factory does its two steps while the loop goes round once. */
  function OneRound(kind: Kind): seq<Step> {
    [FactoryCreate(kind), FactoryFinish, CaptureScreen(true, false), KeepDevice, ReadSettings(false)]
  }

  /** And it does end: the factory's two steps and one round of the loop lead to that update. */
  lemma {:induction false} RefusedRequestEnds(s: State, init: State, steps: seq<Step>, kind: Kind) returns (u: State)
    requires Reached(s, init, steps) && s.place.Update? && !s.factory.pending
    requires s.encoder.Some? && !IsNvidia(s.encoders, s.encoder)
    ensures Enabled(s, UpdateEncoder(false)) && PendingRun(Apply(s, UpdateEncoder(false)), OneRound(kind), u)
    ensures u.place.Update? && u.factory.finished && u.encoder == s.encoder
    ensures Enabled(u, UpdateEncoder(false))
    ensures var v := Apply(u, UpdateEncoder(false));
            && v.encoder == Some(|s.encoders|) && v.encoders[|s.encoders|] == Encoder(kind, 0)
            && DestroyedOnce(v, s.encoder) && !v.updateEncoder && !v.factory.pending
  {
    Reachable(init, steps);
    var run := OneRound(kind);
    var a := Apply(s, UpdateEncoder(false));
    var b := Apply(a, FactoryCreate(kind));
    var c := Apply(b, FactoryFinish);
    var d := Apply(c, CaptureScreen(true, false));
    var e := Apply(d, KeepDevice);
    u := Apply(e, ReadSettings(false));
    assert PendingRun(u, [], u) && run[4..][1..] == [];
    assert PendingRun(e, run[4..], u) && run[3..][1..] == run[4..];
    assert PendingRun(d, run[3..], u) && run[2..][1..] == run[3..];
    assert PendingRun(c, run[2..], u) && run[1..][1..] == run[2..];
    assert PendingRun(b, run[1..], u);
  }
}
