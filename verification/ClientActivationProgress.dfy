/**
  Deactivation ends: once the manager has begun to deactivate the client, the locks still out
  can only become fewer, and when their holders give them back and nobody stops inside the
  mutex, a bounded number of steps leaves the client inactive.
 */
module ClientActivationProgress {
  import opened Wrappers
  import opened ClientActivation
  import opened ClientActivationProofs

  /** The manager is inside deactivate_client. */
  predicate Deactivating(s: State) {
    DeactivationRank(s.manager) > 0
  }

  /** What is left to do: locks to be given back and steps of the manager. */
  function Left(s: State): int {
    DeactivationRank(s.manager) + s.rw.readers
  }

  function Measure(s: State): int {
    Left(s) + if s.mutex.Some? then 1 else 0
  }

  /** A step that serves deactivation: a lock or the mutex is given back, or the manager goes on instead of sleeping. */
  predicate Helps(s: State, step: Step) {
    && Deactivating(s)
    && match step
       case ByWorker(_, w) => w.Unlock? || w.Look? || w.UnlockMutex?
       case ByManager(_) => !(s.manager.WaitReaders? && s.rw.readers > 0)
       case Exiting => false
  }

  // ------------------------------------------------------------ no step sets it back

  lemma WorkerDoesNotHinder(s: State, i: nat, w: WorkerStep)
    requires LocksOk(s.workers, s.rw.readers, s.client) && s.client.isDeactivating && WorkerEnabled(s, i, w)
    ensures Left(WorkerApply(s, i, w)) <= Left(s)
  {}

  lemma ManagerDoesNotHinder(s: State, c: Choice)
    requires ManagerOk(s.manager, s.client, s.rw) && Deactivating(s) && ManagerEnabled(s, c)
    ensures Left(ManagerApply(s, c)) <= Left(s) && ManagerApply(s, c).mutex == s.mutex
    ensures Helps(s, ByManager(c)) ==> Left(ManagerApply(s, c)) < Left(s)
    ensures !Deactivating(ManagerApply(s, c)) ==> !ManagerApply(s, c).client.isActive
  {}

  /** Whatever anyone does, the locks out and the steps of the manager still to come do not become more. */
  lemma {:induction false} NothingHinders(s: State, init: State, steps: seq<Step>, step: Step)
    requires Reached(s, init, steps) && Deactivating(s) && Enabled(s, step)
    ensures Left(Apply(s, step)) <= Left(s)
  {
    Reachable(init, steps);
    hide Reached, MutexOk, SleepOk;
    match step
    case ByWorker(i, w) => { WorkerDoesNotHinder(s, i, w); hide WorkerApply; }
    case ByManager(c) => { ManagerDoesNotHinder(s, c); hide ManagerApply; }
    case Exiting =>
  }

  // ------------------------------------------------------------ helping steps end

  lemma WorkerHelps(s: State, i: nat, w: WorkerStep)
    requires MutexOk(s.workers, s.mutex) && LocksOk(s.workers, s.rw.readers, s.client)
    requires s.client.isDeactivating && s.client.isActive && WorkerEnabled(s, i, w)
    requires w.Unlock? || w.Look? || w.UnlockMutex?
    ensures Measure(WorkerApply(s, i, w)) < Measure(s)
    ensures DeactivationRank(WorkerApply(s, i, w).manager) == DeactivationRank(s.manager)
  {
    assert w.Look? || w.UnlockMutex? ==> InSection(s.workers[i]);
  }

  /** Every helping step lowers the measure, and the one that ends deactivation leaves the client inactive. */
  ghost predicate Forward(s: State, t: State) {
    Measure(t) < Measure(s) && (!Deactivating(t) ==> !t.client.isActive)
  }

  lemma HelpGoesForward(s: State, step: Step)
    requires Inv(s) && Enabled(s, step) && Helps(s, step)
    ensures Forward(s, Apply(s, step))
  {
    hide SleepOk;
    match step
    case ByWorker(i, w) => { WorkerHelps(s, i, w); hide WorkerApply, MutexOk, LocksOk; }
    case ByManager(c) => { ManagerDoesNotHinder(s, c); hide ManagerApply, MutexOk, LocksOk; }
  }

  lemma MeasureNotNegative(s: State)
    requires Inv(s)
    ensures Measure(s) >= 0
  {
    hide MutexOk, SleepOk, ManagerOk;
  }

  // ------------------------------------------------------------ and there is always one

  lemma MutexHolderHelps(s: State, i: nat) returns (step: Step)
    requires MutexOk(s.workers, s.mutex) && LocksOk(s.workers, s.rw.readers, s.client)
    requires s.mutex == Some(i) && s.client.isDeactivating && Deactivating(s) && !s.crashed
    ensures Enabled(s, step) && Helps(s, step)
  {
    assert InSection(s.workers[i]);
    step := ByWorker(i, if s.workers[i].Inside? then Look else UnlockMutex);
  }

  lemma HolderHelps(s: State) returns (step: Step)
    requires MutexOk(s.workers, s.mutex) && LocksOk(s.workers, s.rw.readers, s.client)
    requires s.mutex.None? && s.rw.readers > 0 && Deactivating(s) && !s.crashed
    ensures Enabled(s, step) && Helps(s, step)
  {
    CountWitness(s.workers);
    var k :| 0 <= k < |s.workers| && Holds(s.workers[k]);
    step := ByWorker(k, Unlock);
  }

  /** While deactivation is under way, some helping step is possible: it never waits for anything else. */
  lemma {:induction false} HelpIsPossible(s: State, init: State, steps: seq<Step>) returns (step: Step)
    requires Reached(s, init, steps) && Deactivating(s)
    ensures Enabled(s, step) && Helps(s, step)
  {
    Reachable(init, steps);
    hide Reached, SleepOk;
    if s.mutex.Some? {
      step := MutexHolderHelps(s, s.mutex.value);
    } else if s.rw.readers > 0 {
      step := HolderHelps(s);
    } else {
      step := ByManager(Choice(false, 0, false, false));
    }
  }

  // ------------------------------------------------------------ theorems

  /** Helping steps lead from `s` to `t`. */
  ghost predicate HelpingRun(s: State, steps: seq<Step>, t: State)
    decreases |steps|
  {
    if steps == [] then s == t
    else Enabled(s, steps[0]) && Helps(s, steps[0]) && HelpingRun(Apply(s, steps[0]), steps[1..], t)
  }

  lemma ReachedNext(s: State, init: State, steps: seq<Step>, step: Step)
    requires Reached(s, init, steps) && Enabled(s, step)
    ensures Reached(Apply(s, step), init, steps + [step])
  {
    assert (steps + [step])[..|steps|] == steps;
    hide Apply, Enabled;
  }

  lemma HelpReaches(s: State, init: State, steps: seq<Step>, step: Step)
    requires Reached(s, init, steps) && Enabled(s, step) && Helps(s, step)
    ensures Reached(Apply(s, step), init, steps + [step]) && Forward(s, Apply(s, step))
  {
    ReachedNext(s, init, steps, step);
    Reachable(init, steps);
    hide Reached, Apply, Enabled, Helps, Forward;
    HelpGoesForward(s, step);
  }

  lemma Regrouped(steps: seq<Step>, more: seq<Step>)
    requires more != []
    ensures steps + [more[0]] + more[1..] == steps + more
  {}

  /** Helping steps are bounded by what is left to do when they start. */
  lemma {:induction false} HelpingRunsEnd(s: State, init: State, steps: seq<Step>, more: seq<Step>, t: State)
    requires Reached(s, init, steps) && HelpingRun(s, more, t)
    ensures Reached(t, init, steps + more) && |more| + Measure(t) <= Measure(s)
    ensures Deactivating(s) && !Deactivating(t) ==> !t.client.isActive
    decreases |more|
  {
    hide Reached, Apply, Enabled, Measure, Helps, Deactivating;
    if more == [] {
      assert steps + more == steps;
    } else {
      var u := Apply(s, more[0]);
      HelpReaches(s, init, steps, more[0]);
      HelpingRunsEnd(u, init, steps + [more[0]], more[1..], t);
      StopsWhenDone(u, more[1..], t);
      Regrouped(steps, more);
    }
  }

  /** No step helps once deactivation is over. */
  lemma StopsWhenDone(s: State, steps: seq<Step>, t: State)
    requires HelpingRun(s, steps, t)
    ensures !Deactivating(s) ==> s == t
  {}

  /** No helping step is left. */
  ghost predicate Spent(t: State) {
    forall step :: Enabled(t, step) ==> !Helps(t, step)
  }

  /**
    Deactivation ends with the client inactive: every run of helping steps, from any point
    inside deactivate_client, is bounded, and one that cannot be continued has left the client
    inactive.
   */
  lemma {:induction false} DeactivationEnds(s: State, init: State, steps: seq<Step>, more: seq<Step>, t: State)
    requires Reached(s, init, steps) && Deactivating(s) && HelpingRun(s, more, t)
    ensures |more| <= Measure(s)
    ensures Spent(t) ==> !Deactivating(t) && !t.client.isActive
  {
    HelpingRunsEnd(s, init, steps, more, t);
    Reachable(init, steps + more);
    MeasureNotNegative(t);
    hide Inv, Apply, Enabled, Helps, HelpingRun, Measure;
    if Deactivating(t) {
      var step := HelpIsPossible(t, init, steps + more);
    }
  }

  // ------------------------------------------------------------ shutdown

  /** Turns left to the manager, once the program is exiting, until it has finished. */
  function ShutdownRank(m: Manager): nat {
    match m
    case Finished => 0
    case Permanent => 1
    case Clear(why) => if why.AtShutdown? then 2 else 12
    case WriteReleased(why) => if why.AtShutdown? then 3 else 13
    case HoldWrite(why) => if why.AtShutdown? then 4 else 14
    case WaitWriter(why) => if why.AtShutdown? then 5 else 15
    case WaitReaders(why, _) => if why.AtShutdown? then 6 else 16
    case Deactivate(why) => if why.AtShutdown? then 7 else 17
    case StartDeactivating => 8
    case Leave => 9
    case Top => 10
    case Disconnect => 11
    case Polling => 18
    case Active => 19
    case Activate => 20
    case Connecting => 21
    case Connect => 22
  }

  /** Steps left to a worker until it holds nothing, if it starts nothing new. */
  function Burden(w: Worker): nat {
    match w
    case Out => 0
    case Asleep(_) => 0
    case Holding => 1
    case Got => 2
    case ReadLocking => 3
    case Inside(_) => 4
  }

  function Burdens(ws: seq<Worker>): nat {
    if ws == [] then 0 else Burdens(ws[..|ws| - 1]) + Burden(ws[|ws| - 1])
  }

  lemma {:induction false} BurdenUpdate(ws: seq<Worker>, i: nat, w: Worker)
    requires i < |ws|
    ensures Burdens(ws[i := w]) == Burdens(ws) - Burden(ws[i]) + Burden(w)
    decreases |ws|
  {
    hide Burden;
    var n := |ws| - 1;
    if i < n {
      BurdenUpdate(ws[..n], i, w);
      assert ws[i := w][..n] == ws[..n][i := w];
    } else {
      assert ws[i := w][..n] == ws[..n];
    }
  }

  lemma {:induction false} BurdenBroadcast(ws: seq<Worker>)
    ensures Burdens(Broadcast(ws)) == Burdens(ws)
    decreases |ws|
  {
    if ws != [] {
      BurdenBroadcast(ws[..|ws| - 1]);
      assert Broadcast(ws)[..|ws| - 1] == Broadcast(ws[..|ws| - 1]);
    }
  }

  function ShutdownMeasure(s: State): nat {
    ShutdownRank(s.manager) + Burdens(s.workers)
  }

  /** A step that serves the shutdown: a lock attempt goes on, a lock is given back, or the manager takes its turn. */
  predicate Winds(s: State, step: Step) {
    && s.exiting && !s.manager.Finished?
    && match step
       case ByWorker(_, w) => w.Look? || w.TakeReadLock? || w.UnlockMutex? || w.Unlock?
       case ByManager(_) => !(s.manager.WaitReaders? && s.rw.readers > 0)
       case Exiting => false
  }

  lemma WorkerWinds(s: State, i: nat, w: WorkerStep)
    requires LocksOk(s.workers, s.rw.readers, s.client) && WorkerEnabled(s, i, w)
    requires w.Look? || w.TakeReadLock? || w.UnlockMutex? || w.Unlock?
    ensures Burdens(WorkerApply(s, i, w).workers) < Burdens(s.workers)
    ensures ShutdownRank(WorkerApply(s, i, w).manager) == ShutdownRank(s.manager)
    ensures WorkerApply(s, i, w).exiting == s.exiting
  {
    var t := WorkerApply(s, i, w);
    assert t.workers == s.workers[i := t.workers[i]];
    BurdenUpdate(s.workers, i, t.workers[i]);
    hide Burdens;
  }

  lemma ManagerWinds(s: State, c: Choice)
    requires ManagerOk(s.manager, s.client, s.rw) && ManagerEnabled(s, c) && s.exiting
    requires !(s.manager.WaitReaders? && s.rw.readers > 0)
    ensures ShutdownRank(ManagerApply(s, c).manager) < ShutdownRank(s.manager)
    ensures ManagerApply(s, c).exiting
  {}

  lemma WindingLowers(s: State, step: Step)
    requires Inv(s) && Enabled(s, step) && Winds(s, step)
    ensures ShutdownMeasure(Apply(s, step)) < ShutdownMeasure(s) && Apply(s, step).exiting
  {
    hide MutexOk, SleepOk, Burdens, ShutdownRank;
    match step
    case ByWorker(i, w) => { WorkerWinds(s, i, w); hide WorkerApply; }
    case ByManager(c) => {
      ManagerWinds(s, c);
      ManagerEffect(s, c);
      BurdenBroadcast(s.workers);
      hide ManagerApply, LocksOk, ManagerOk;
    }
  }

  /** Until the manager has finished, some step that serves the shutdown is possible. */
  lemma {:induction false} WindingIsPossible(s: State, init: State, steps: seq<Step>) returns (step: Step)
    requires Reached(s, init, steps) && s.exiting && !s.manager.Finished?
    ensures Enabled(s, step) && Winds(s, step)
  {
    Reachable(init, steps);
    if s.mutex.Some? {
      var i := s.mutex.value;
      assert InSection(s.workers[i]);
      if s.workers[i].ReadLocking? {
        ReadLockNeverBlocks(s, init, steps, i);
      }
      hide Reached, SleepOk, LocksOk;
      step := ByWorker(i, if s.workers[i].Inside? then Look
                          else if s.workers[i].ReadLocking? then TakeReadLock else UnlockMutex);
    } else if s.manager.WaitReaders? && s.rw.readers > 0 {
      hide Reached, SleepOk;
      CountWitness(s.workers);
      var k :| 0 <= k < |s.workers| && Holds(s.workers[k]);
      step := ByWorker(k, Unlock);
    } else {
      hide Reached, SleepOk, LocksOk, MutexOk;
      step := ByManager(Choice(false, 0, false, false));
    }
  }

  ghost predicate WindingRun(s: State, steps: seq<Step>, t: State)
    decreases |steps|
  {
    if steps == [] then s == t
    else Enabled(s, steps[0]) && Winds(s, steps[0]) && WindingRun(Apply(s, steps[0]), steps[1..], t)
  }

  lemma WindingReaches(s: State, init: State, steps: seq<Step>, step: Step)
    requires Reached(s, init, steps) && Enabled(s, step) && Winds(s, step)
    ensures Reached(Apply(s, step), init, steps + [step])
    ensures ShutdownMeasure(Apply(s, step)) < ShutdownMeasure(s) && Apply(s, step).exiting
  {
    ReachedNext(s, init, steps, step);
    Reachable(init, steps);
    hide Reached, Apply, Enabled, Winds, ShutdownMeasure;
    WindingLowers(s, step);
  }

  lemma {:induction false} WindingRunsEnd(s: State, init: State, steps: seq<Step>, more: seq<Step>, t: State)
    requires Reached(s, init, steps) && WindingRun(s, more, t) && s.exiting
    ensures Reached(t, init, steps + more) && t.exiting && |more| + ShutdownMeasure(t) <= ShutdownMeasure(s)
    decreases |more|
  {
    hide Reached, Apply, Enabled, ShutdownMeasure, Winds;
    if more == [] {
      assert steps + more == steps;
    } else {
      WindingReaches(s, init, steps, more[0]);
      WindingRunsEnd(Apply(s, more[0]), init, steps + [more[0]], more[1..], t);
      Regrouped(steps, more);
    }
  }

  /** No step that serves the shutdown is left. */
  ghost predicate Unwound(t: State) {
    forall step :: Enabled(t, step) ==> !Winds(t, step)
  }

  /**
    Shutdown ends: once the program is exiting, runs of the steps that serve it are bounded,
    and one that cannot be continued has left the client inactive and permanently deactivated,
    with nobody asleep unsignalled.
   */
  lemma {:induction false} ShutdownEnds(s: State, init: State, steps: seq<Step>, more: seq<Step>, t: State)
    requires Reached(s, init, steps) && s.exiting && WindingRun(s, more, t)
    ensures |more| <= ShutdownMeasure(s)
    ensures Unwound(t) ==>
              && t.manager.Finished? && !t.client.isActive && t.client.isPermanentlyDeactivated
              && forall k :: 0 <= k < |t.workers| ==> t.workers[k] != Asleep(false)
  {
    WindingRunsEnd(s, init, steps, more, t);
    Reachable(init, steps + more);
    hide Apply, Enabled, Winds, WindingRun, ShutdownMeasure, MutexOk, LocksOk, Reached;
    if !t.manager.Finished? {
      var step := WindingIsPossible(t, init, steps + more);
    }
  }
}
