/**
  Left alone, the clipboard synchronizer settles: while no further chunk, poll or shutdown
  comes, its threads take a bounded number of steps of their own, always have one to take
  until everything is quiet, and then the last completed push has been written.
 */
module ClipboardSyncProgress {
  import opened Wrappers
  import opened ClipboardChunks
  import opened ClipboardSync
  import opened ClipboardSyncProofs
  import opened ClipboardSyncTheorems

  /** A step the threads take by themselves: no new call, no spurious wake-up. */
  predicate OwnStep(s: State, step: Step) {
    match step
    case PushChunk(_, _, _) => false
    case PollPull(_, _, _) => false
    case Destroy => false
    case Run(w) =>
      w < |s.workers| && var p := s.workers[w].phase; p.Ready? || p == WaitContinue(true) || p == WaitSlot(true)
    case _ => true
  }

  // ------------------------------------------------------------ something can move

  lemma WorkerMoves(s: State, k: nat) returns (step: Step)
    requires s.caller.Idle? && k < |s.workers|
    requires var p := s.workers[k].phase; !p.Exited? && p != WaitContinue(false) && p != WaitSlot(false)
    ensures Enabled(s, step) && OwnStep(s, step)
  {
    step := match s.workers[k].phase
      case Setup => Publish(k)
      case Fetching => Fetch(k, None)
      case Setting => WriteOs(k)
      case SetDone => EndSet(k)
      case Leaving => Exit(k)
      case _ => Run(k);
  }

  lemma CallerMoves(s: State) returns (step: Step)
    requires Ownership(s) && !s.caller.Idle?
    ensures Enabled(s, step) && OwnStep(s, step)
  {
    step := if s.workers[s.active.value].phase.Setup? then Publish(s.active.value) else Resume;
  }

  /** Until everything is quiet some thread can take a step of its own. */
  lemma {:induction false} NotQuietMoves(s: State, init: State, steps: seq<Step>) returns (step: Step)
    requires Reached(s, init, steps) && !AllQuiet(s)
    ensures Enabled(s, step) && OwnStep(s, step)
  {
    ReachedInv(s, init, steps);
    hide Reached, WorkersOk, Slot, Queue, History, Streams, WholeDone, OpenIsActive, Pulls, Enabled, OwnStep;
    if !s.caller.Idle? {
      step := CallerMoves(s);
    } else {
      var k :| 0 <= k < |s.workers| && !s.workers[k].phase.Exited?
        && s.workers[k].phase != WaitContinue(false) && s.workers[k].phase != WaitSlot(false);
      step := WorkerMoves(s, k);
    }
  }

  // ------------------------------------------------------------ and not for ever

  /** The steps a worker among `n` can still take, and cause, by itself. */
  function Weight(n: nat, p: Phase): nat {
    match p
    case Exited => 0
    case Leaving => 1
    case SetDone => n + 2
    case Setting => n + 3
    case WaitSlot(signalled) => n + 4 + if signalled then 1 else 0
    case WaitContinue(signalled) => n + 6 + if signalled then 1 else 0
    case Ready => n + 8
    case Fetching => n + 9
    case Setup => n + 10
  }

  function Total(n: nat, ws: seq<Worker>): nat {
    if ws == [] then 0 else Total(n, ws[..|ws| - 1]) + Weight(n, ws[|ws| - 1].phase)
  }

  function Measure(s: State): nat {
    Total(|s.workers|, s.workers) + if s.caller.Idle? then 0 else 1
  }

  lemma {:induction false} TotalUpdate(n: nat, ws: seq<Worker>, i: nat, w: Worker)
    requires i < |ws|
    ensures Total(n, ws[i := w]) == Total(n, ws) - Weight(n, ws[i].phase) + Weight(n, w.phase)
    decreases |ws|
  {
    hide Weight;
    var m := |ws| - 1;
    if i < m {
      TotalUpdate(n, ws[..m], i, w);
      assert ws[i := w][..m] == ws[..m][i := w];
    } else {
      assert ws[i := w][..m] == ws[..m];
    }
  }

  lemma {:induction false} TotalWoken(n: nat, ws: seq<Worker>)
    ensures Total(n, BroadcastSlot(ws)) <= Total(n, ws) + |ws|
    decreases |ws|
  {
    if ws != [] {
      var m := |ws| - 1;
      TotalWoken(n, ws[..m]);
      assert BroadcastSlot(ws)[..m] == BroadcastSlot(ws[..m]);
      assert Weight(n, BroadcastSlot(ws)[m].phase) <= Weight(n, ws[m].phase) + 1;
    }
  }

  /** A step that only moves worker `i`, to a lighter phase. */
  ghost predicate Lightens(s: State, t: State, i: nat) {
    && i < |s.workers|
    && (exists w ::
          t.workers == s.workers[i := w] && Weight(|s.workers|, w.phase) < Weight(|s.workers|, s.workers[i].phase))
    && t.caller == s.caller && t.done == s.done && t.arrivals == s.arrivals
  }

  lemma LighterMeasure(s: State, t: State, i: nat)
    requires Lightens(s, t, i)
    ensures Measure(t) < Measure(s)
  {
    var n := |s.workers|;
    var w :| t.workers == s.workers[i := w] && Weight(n, w.phase) < Weight(n, s.workers[i].phase);
    hide Weight;
    TotalUpdate(n, s.workers, i, w);
    hide Total;
  }

  lemma PhaseLightens(s: State, t: State, i: nat)
    requires i < |s.workers| && t.caller == s.caller && t.done == s.done && t.arrivals == s.arrivals
    requires |t.workers| == |s.workers| && t.workers == s.workers[i := t.workers[i]]
    requires Weight(|s.workers|, t.workers[i].phase) < Weight(|s.workers|, s.workers[i].phase)
    ensures Lightens(s, t, i)
  {}

  lemma RunPushLightens(s: State, i: nat)
    requires i < |s.workers| && OwnStep(s, Run(i)) && WorkerOk(s.workers[i])
    ensures Lightens(s, RunPush(s, i), i)
  {
    var t := RunPush(s, i);
    assert t.workers == s.workers[i := t.workers[i]];
    PhaseLightens(s, t, i);
  }

  lemma RunPullLightens(s: State, i: nat)
    requires i < |s.workers| && OwnStep(s, Run(i)) && WorkerOk(s.workers[i]) && s.workers[i].action.Pull?
    ensures Lightens(s, RunPull(s, i), i)
  {
    var t := RunPull(s, i);
    assert t.workers == s.workers[i := t.workers[i]];
    PhaseLightens(s, t, i);
  }

  lemma PublishLightens(s: State, i: nat)
    requires At(s, i, Setup)
    ensures Lightens(s, PublishWorker(s, i), i)
  {
    PhaseLightens(s, PublishWorker(s, i), i);
  }

  lemma FetchLightens(s: State, i: nat, clip: Option<Clip>)
    requires At(s, i, Fetching)
    ensures Lightens(s, FetchClip(s, i, clip), i)
  {
    PhaseLightens(s, FetchClip(s, i, clip), i);
  }

  lemma WriteLightens(s: State, i: nat)
    requires At(s, i, Setting)
    ensures Lightens(s, WriteClip(s, i), i)
  {
    PhaseLightens(s, WriteClip(s, i), i);
  }

  lemma ExitLightens(s: State, i: nat)
    requires At(s, i, Leaving)
    ensures Lightens(s, SetPhase(s, i, Exited), i)
  {
    PhaseLightens(s, SetPhase(s, i, Exited), i);
  }

  lemma ReleaseLightens(s: State, i: nat)
    requires i < |s.workers| && s.workers[i].phase.SetDone?
    ensures Measure(ReleaseSlot(s, i)) < Measure(s)
    ensures ReleaseSlot(s, i).done == s.done && ReleaseSlot(s, i).arrivals == s.arrivals
  {
    var n := |s.workers|;
    var w := s.workers[i].(phase := Leaving);
    TotalUpdate(n, s.workers, i, w);
    TotalWoken(n, s.workers[i := w]);
    assert ReleaseSlot(s, i).workers == BroadcastSlot(s.workers[i := w]);
    hide Total;
  }

  lemma {:induction false} TotalSamePhases(n: nat, a: seq<Worker>, b: seq<Worker>)
    requires |a| == |b| && forall k :: 0 <= k < |a| ==> a[k].phase == b[k].phase
    ensures Total(n, a) == Total(n, b)
    decreases |a|
  {
    if a != [] {
      TotalSamePhases(n, a[..|a| - 1], b[..|b| - 1]);
    }
  }

  /** The caller's first chunk changes no phase and completes nothing. */
  lemma ResumeIs(s: State)
    requires Inv(s) && !s.caller.Idle? && s.setupPosts > 0
    ensures var t := ResumeCaller(s);
            && t.caller.Idle? && t.done == s.done && t.arrivals == s.arrivals && |t.workers| == |s.workers|
            && forall k :: 0 <= k < |s.workers| ==> t.workers[k].phase == s.workers[k].phase
  {
    if s.caller.StartingPush? {
      hide WorkersOk, Slot, Queue, History, DoneStreams, ActiveStream, WholeDone, OpenIsActive, Pulls, ActiveOk;
      ResumedOwnership(s);
      ResumedRest(s);
      ActivePushIsActive(Resumed(s));
      StartingChunkIsStart(s);
      ResumePushIs(s);
    }
  }

  lemma ResumeLightens(s: State)
    requires Inv(s) && !s.caller.Idle? && s.setupPosts > 0
    ensures Measure(ResumeCaller(s)) < Measure(s)
  {
    ResumeIs(s);
    TotalSamePhases(|s.workers|, ResumeCaller(s).workers, s.workers);
    hide Inv, ResumeCaller, Total;
  }

  /** Every step of the threads' own lowers the measure, and completes and receives nothing. */
  ghost predicate Settles(s: State, t: State) {
    Measure(t) < Measure(s) && t.done == s.done && t.arrivals == s.arrivals
  }

  lemma LightensSettles(s: State, t: State, i: nat)
    requires Lightens(s, t, i)
    ensures Settles(s, t)
  {
    LighterMeasure(s, t, i);
  }

  lemma RunSettles(s: State, i: nat)
    requires WorkersOk(s) && Enabled(s, Run(i)) && OwnStep(s, Run(i))
    ensures Settles(s, Apply(s, Run(i)))
  {
    assert WorkerOk(s.workers[i]);
    hide Settles, Lightens, RunPush, RunPull, WorkerOk;
    if s.workers[i].action.Push? {
      RunPushLightens(s, i);
      LightensSettles(s, RunPush(s, i), i);
    } else {
      RunPullLightens(s, i);
      LightensSettles(s, RunPull(s, i), i);
    }
  }

  lemma PhaseStepSettles(s: State, step: Step)
    requires Enabled(s, step) && (step.Publish? || step.Fetch? || step.WriteOs? || step.Exit?)
    ensures Settles(s, Apply(s, step))
  {
    hide Settles, Lightens;
    match step
    case Publish(i) => { PublishLightens(s, i); LightensSettles(s, PublishWorker(s, i), i); }
    case Fetch(i, clip) => { FetchLightens(s, i, clip); LightensSettles(s, FetchClip(s, i, clip), i); }
    case WriteOs(i) => { WriteLightens(s, i); LightensSettles(s, WriteClip(s, i), i); }
    case Exit(i) => { ExitLightens(s, i); LightensSettles(s, SetPhase(s, i, Exited), i); }
  }

  lemma OwnStepSettles(s: State, step: Step)
    requires Inv(s) && Enabled(s, step) && OwnStep(s, step)
    ensures Settles(s, Apply(s, step))
  {
    match step
    case Resume => { ResumeIs(s); ResumeLightens(s); hide Inv, ResumeCaller, Measure; }
    case EndSet(i) => { ReleaseLightens(s, i); hide Inv, ReleaseSlot, Measure; }
    case Run(i) => { hide Settles, RunPush, RunPull; RunSettles(s, i); }
    case _ => { hide Inv, Settles; PhaseStepSettles(s, step); }
  }

  // ------------------------------------------------------------ theorems

  /** The threads' own steps lead from `s` to `t`. */
  ghost predicate OwnRun(s: State, steps: seq<Step>, t: State)
    decreases |steps|
  {
    if steps == [] then s == t
    else Enabled(s, steps[0]) && OwnStep(s, steps[0]) && OwnRun(Apply(s, steps[0]), steps[1..], t)
  }

  lemma ReachedNext(s: State, init: State, steps: seq<Step>, step: Step)
    requires Reached(s, init, steps) && Enabled(s, step)
    ensures Reached(Apply(s, step), init, steps + [step])
  {
    assert (steps + [step])[..|steps|] == steps;
    hide Apply, Enabled, Init;
  }

  /**
    The threads' own steps are bounded by the measure of the state they start from; they
    lead through reachable states, and complete and receive nothing.
   */
  lemma {:induction false} OwnRunsEnd(s: State, init: State, steps: seq<Step>, more: seq<Step>, t: State)
    requires Reached(s, init, steps) && OwnRun(s, more, t)
    ensures |more| + Measure(t) <= Measure(s)
    ensures Reached(t, init, steps + more) && t.done == s.done && t.arrivals == s.arrivals
    decreases |more|
  {
    hide Reached, Measure, Apply, Enabled, OwnStep;
    if more == [] {
      assert steps + more == steps;
    } else {
      OwnStepReaches(s, init, steps, more[0]);
      OwnRunsEnd(Apply(s, more[0]), init, steps + [more[0]], more[1..], t);
      Regrouped(steps, more);
    }
  }

  lemma OwnStepReaches(s: State, init: State, steps: seq<Step>, step: Step)
    requires Reached(s, init, steps) && Enabled(s, step) && OwnStep(s, step)
    ensures Reached(Apply(s, step), init, steps + [step]) && Settles(s, Apply(s, step))
  {
    ReachedNext(s, init, steps, step);
    ReachedInv(s, init, steps);
    hide Reached, Inv, Apply, Enabled, OwnStep, Settles;
    OwnStepSettles(s, step);
  }

  lemma Regrouped(steps: seq<Step>, more: seq<Step>)
    requires more != []
    ensures steps + [more[0]] + more[1..] == steps + more
  {}

  /** No thread can take a step of its own. */
  ghost predicate Settled(t: State) {
    forall step :: Enabled(t, step) ==> !OwnStep(t, step)
  }

  /**
    Left alone for long enough, the synchronizer writes the push that completed last: any run
    of own steps that cannot be continued ends with everything quiet, and the last write of
    the OS clipboard is then the stream of the last push completed before it.
   */
  lemma {:induction false} LastPushIsWritten(s: State, init: State, steps: seq<Step>, more: seq<Step>, t: State)
    requires Reached(s, init, steps) && OwnRun(s, more, t) && Settled(t)
    ensures AllQuiet(t) && t.queued == 0 && !t.settingOs
    ensures LastPushWritten(s.done, s.arrivals, t.written)
  {
    OwnRunsEnd(s, init, steps, more, t);
    hide Reached, OwnRun, Settled, AllQuiet, LastPushWritten, Measure;
    SettledIsQuiet(t, init, steps + more);
    LastWriterWins(t, init, steps + more);
  }

  lemma SettledIsQuiet(t: State, init: State, steps: seq<Step>)
    requires Reached(t, init, steps) && Settled(t)
    ensures AllQuiet(t)
  {
    hide Reached, Enabled, OwnStep;
    if !AllQuiet(t) {
      var step := NotQuietMoves(t, init, steps);
    }
  }
}
