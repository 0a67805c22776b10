/** What every run of the client activation protocol guarantees. */
module ClientActivationProofs {
  import opened Wrappers
  import opened ClientActivation

  // -------------------------------------------------------------- counting readers

  ghost function Count(ws: seq<Worker>): nat {
    if |ws| == 0 then 0 else Count(ws[..|ws| - 1]) + if Holds(ws[|ws| - 1]) then 1 else 0
  }

  lemma {:induction false} CountSame(a: seq<Worker>, b: seq<Worker>)
    requires |a| == |b| && forall k :: 0 <= k < |a| ==> Holds(a[k]) == Holds(b[k])
    ensures Count(a) == Count(b)
    decreases |a|
  {
    if |a| > 0 {
      CountSame(a[..|a| - 1], b[..|b| - 1]);
    }
  }

  lemma {:induction false} CountUpdate(ws: seq<Worker>, i: nat, w: Worker)
    requires i < |ws|
    ensures Count(ws[i := w]) == Count(ws) - (if Holds(ws[i]) then 1 else 0) + (if Holds(w) then 1 else 0)
    decreases |ws|
  {
    var n := |ws| - 1;
    if i == n {
      assert ws[i := w][..n] == ws[..n];
    } else {
      assert ws[i := w][..n] == ws[..n][i := w];
      CountUpdate(ws[..n], i, w);
    }
  }

  lemma {:induction false} CountPositive(ws: seq<Worker>, i: nat)
    requires i < |ws| && Holds(ws[i])
    ensures Count(ws) > 0
    decreases |ws|
  {
    if i < |ws| - 1 {
      CountPositive(ws[..|ws| - 1], i);
    }
  }

  // ---------------------------------------------------------------- the invariant

  /** Exactly the worker inside a section holds cond_mutex. */
  ghost predicate MutexOk(ws: seq<Worker>, mutex: Option<nat>) {
    && (forall k :: 0 <= k < |ws| ==> (InSection(ws[k]) <==> mutex == Some(k)))
    && (mutex.Some? ==> mutex.value < |ws|)
  }

  /** A lock is only ever taken or kept on an active client. */
  ghost predicate LocksOk(ws: seq<Worker>, readers: int, client: Client) {
    && readers == Count(ws)
    && (forall k :: 0 <= k < |ws| && Holds(ws[k]) ==> client.isActive)
    && (forall k :: 0 <= k < |ws| && ws[k].ReadLocking? ==> Lockable(client))
  }

  /** Nobody sleeps unsignalled while the client is lockable or permanently deactivated. */
  ghost predicate SleepOk(ws: seq<Worker>, client: Client) {
    forall k :: 0 <= k < |ws| && ws[k] == Asleep(false) ==> !Lockable(client) && !client.isPermanentlyDeactivated
  }

  /** What the manager's place in its loop says about the client and the rwlock. */
  ghost predicate ManagerOk(m: Manager, c: Client, rw: RWLock) {
    && (c.isDeactivating ==> c.isActive)
    && (c.isActive ==> c.socketsOpen)
    && (c.isPermanentlyDeactivated <==> m.Finished?)
    && rw.writers == (if m.WaitReaders? || m.WaitWriter? || m.HoldWrite? || m.WriteReleased? then 1 else 0)
    && rw.writerActive == m.HoldWrite?
    && match m
       case Top => true
       case Connect => !c.isActive
       case Connecting => !c.isActive
       case Activate => !c.isActive && c.socketsOpen
       case Active => c.isActive
       case Polling => c.isActive
       case Deactivate(_) => c.isDeactivating
       case WaitReaders(_, asleep) => c.isDeactivating && (asleep ==> rw.readers > 0)
       case WaitWriter(_) => c.isDeactivating && rw.readers == 0
       case HoldWrite(_) => c.isDeactivating && rw.readers == 0
       case WriteReleased(_) => c.isDeactivating && rw.readers == 0
       case Clear(_) => c.isDeactivating && rw.readers == 0
       case Disconnect => !c.isActive
       case Leave => true
       case StartDeactivating => c.isActive
       case Permanent => !c.isActive
       case Finished => !c.isActive
  }

  ghost predicate Inv(s: State) {
    && MutexOk(s.workers, s.mutex)
    && LocksOk(s.workers, s.rw.readers, s.client)
    && SleepOk(s.workers, s.client)
    && ManagerOk(s.manager, s.client, s.rw)
    && !s.crashed
  }

  // ------------------------------------------------------------------ worker steps

  /** What a worker's step leaves of its own state, the client and the readers. */
  lemma WorkerEffect(s: State, i: nat, step: WorkerStep)
    requires WorkerEnabled(s, i, step)
    ensures var t := WorkerApply(s, i, step);
            && |t.workers| == |s.workers| && t.workers == s.workers[i := t.workers[i]]
            && t.rw.readers ==
                 s.rw.readers - (if Holds(s.workers[i]) then 1 else 0) + (if Holds(t.workers[i]) then 1 else 0)
            && (t.client == s.client || (s.mutex.None? && t.client == s.client.(isDeactivating := true)))
  {}

  lemma MutexUpdate(ws: seq<Worker>, m: Option<nat>, i: nat, w: Worker, n: Option<nat>)
    requires MutexOk(ws, m) && i < |ws|
    requires InSection(w) <==> n == Some(i)
    requires m == n || (m.None? && n == Some(i)) || (m == Some(i) && n.None?)
    ensures MutexOk(ws[i := w], n)
  {}

  lemma WorkerMutex(s: State, i: nat, step: WorkerStep)
    requires MutexOk(s.workers, s.mutex) && WorkerEnabled(s, i, step)
    ensures MutexOk(WorkerApply(s, i, step).workers, WorkerApply(s, i, step).mutex)
  {
    WorkerEffect(s, i, step);
    var t := WorkerApply(s, i, step);
    assert InSection(s.workers[i]) <==> s.mutex == Some(i);
    hide MutexOk;
    MutexUpdate(s.workers, s.mutex, i, t.workers[i], t.mutex);
  }

  lemma LocksUpdate(ws: seq<Worker>, readers: int, c: Client, i: nat, w: Worker, r: int, d: Client)
    requires LocksOk(ws, readers, c) && i < |ws|
    requires r == readers - (if Holds(ws[i]) then 1 else 0) + (if Holds(w) then 1 else 0)
    requires Holds(w) ==> d.isActive
    requires w.ReadLocking? ==> Lockable(d)
    requires d == c || (d == c.(isDeactivating := true) && forall k :: 0 <= k < |ws| ==> !ws[k].ReadLocking?)
    ensures LocksOk(ws[i := w], r, d)
  {
    CountUpdate(ws, i, w);
  }

  lemma WorkerLocks(s: State, i: nat, step: WorkerStep)
    requires LocksOk(s.workers, s.rw.readers, s.client) && MutexOk(s.workers, s.mutex) && WorkerEnabled(s, i, step)
    ensures var t := WorkerApply(s, i, step); LocksOk(t.workers, t.rw.readers, t.client)
  {
    WorkerEffect(s, i, step);
    var t := WorkerApply(s, i, step);
    assert s.mutex.None? ==> forall k :: 0 <= k < |s.workers| ==> !s.workers[k].ReadLocking?;
    LocksUpdate(s.workers, s.rw.readers, s.client, i, t.workers[i], t.rw.readers, t.client);
  }

  lemma WorkerSleep(s: State, i: nat, step: WorkerStep)
    requires SleepOk(s.workers, s.client) && WorkerEnabled(s, i, step)
    ensures SleepOk(WorkerApply(s, i, step).workers, WorkerApply(s, i, step).client)
  {
    WorkerEffect(s, i, step);
  }

  lemma WorkerManager(s: State, i: nat, step: WorkerStep)
    requires LocksOk(s.workers, s.rw.readers, s.client) && ManagerOk(s.manager, s.client, s.rw)
    requires WorkerEnabled(s, i, step) && !s.crashed
    ensures var t := WorkerApply(s, i, step); ManagerOk(t.manager, t.client, t.rw) && !t.crashed
  {
    if Holds(s.workers[i]) {
      CountPositive(s.workers, i);
    }
  }

  lemma WorkerKeeps(s: State, i: nat, step: WorkerStep)
    requires Inv(s) && WorkerEnabled(s, i, step)
    ensures Inv(WorkerApply(s, i, step))
  {
    hide MutexOk, LocksOk, SleepOk, ManagerOk, WorkerApply, WorkerEnabled;
    WorkerMutex(s, i, step);
    WorkerLocks(s, i, step);
    WorkerSleep(s, i, step);
    WorkerManager(s, i, step);
  }

  // ----------------------------------------------------------------- manager steps

  /** The client can become lockable, or permanently deactivated, only with a broadcast. */
  ghost predicate QuietStep(s: State, t: State) {
    && t.mutex == s.mutex && t.rw.readers == s.rw.readers && t.workers == s.workers
    && (Lockable(t.client) ==> Lockable(s.client))
    && t.client.isPermanentlyDeactivated == s.client.isPermanentlyDeactivated
  }

  lemma ConnectsQuietly(s: State, c: Choice)
    ensures QuietStep(s, ManagerConnects(s, c))
  {}

  lemma DeactivatesQuietly(s: State)
    ensures QuietStep(s, ManagerDeactivates(s))
  {}

  lemma ManagerEffect(s: State, c: Choice)
    ensures var t := ManagerApply(s, c);
            && t.mutex == s.mutex && t.rw.readers == s.rw.readers
            && (t.workers == s.workers || t.workers == Broadcast(s.workers))
            && (t.crashed || t.workers == Broadcast(s.workers) || QuietStep(s, t))
  {
    ConnectsQuietly(s, c);
    DeactivatesQuietly(s);
    hide ManagerConnects, ManagerDeactivates;
  }

  lemma ManagerMutex(s: State, c: Choice)
    requires MutexOk(s.workers, s.mutex)
    ensures MutexOk(ManagerApply(s, c).workers, ManagerApply(s, c).mutex)
  {
    ManagerEffect(s, c);
    hide ManagerApply;
  }

  lemma BroadcastLocks(ws: seq<Worker>, readers: int, client: Client)
    requires LocksOk(ws, readers, client)
    ensures LocksOk(Broadcast(ws), readers, client)
  {
    CountSame(ws, Broadcast(ws));
  }

  /** With no readers there is no holder, and the client may become inactive. */
  lemma NoReadersNoLocks(ws: seq<Worker>)
    requires Count(ws) == 0
    ensures forall k :: 0 <= k < |ws| ==> !Holds(ws[k])
  {
    forall k | 0 <= k < |ws|
      ensures !Holds(ws[k])
    {
      if Holds(ws[k]) {
        CountPositive(ws, k);
      }
    }
  }

  lemma ManagerLocks(s: State, c: Choice)
    requires MutexOk(s.workers, s.mutex) && LocksOk(s.workers, s.rw.readers, s.client)
    requires ManagerOk(s.manager, s.client, s.rw) && ManagerEnabled(s, c)
    ensures var t := ManagerApply(s, c); LocksOk(t.workers, t.rw.readers, t.client)
  {
    ManagerEffect(s, c);
    BroadcastLocks(s.workers, s.rw.readers, s.client);
    assert s.mutex.None? ==> forall k :: 0 <= k < |s.workers| ==> !s.workers[k].ReadLocking?;
    if s.manager.Clear? {
      NoReadersNoLocks(s.workers);
    }
  }

  lemma ManagerSleep(s: State, c: Choice)
    requires SleepOk(s.workers, s.client) && !ManagerApply(s, c).crashed
    ensures SleepOk(ManagerApply(s, c).workers, ManagerApply(s, c).client)
  {
    ManagerEffect(s, c);
    hide ManagerApply;
  }

  ghost predicate StillOk(t: State) {
    ManagerOk(t.manager, t.client, t.rw) && !t.crashed
  }

  lemma ConnectsOk(s: State, c: Choice)
    requires StillOk(s)
    ensures StillOk(ManagerConnects(s, c))
  {}

  lemma DeactivatesOk(s: State)
    requires StillOk(s) && s.rw.readers >= 0
    ensures StillOk(ManagerDeactivates(s))
  {}

  /** No FATAL_ASSERT of the manager fails. */
  lemma ManagerManager(s: State, c: Choice)
    requires StillOk(s) && Count(s.workers) == s.rw.readers
    ensures StillOk(ManagerApply(s, c))
  {
    ConnectsOk(s, c);
    DeactivatesOk(s);
    hide ManagerConnects, ManagerDeactivates;
  }

  lemma ManagerKeeps(s: State, c: Choice)
    requires Inv(s) && ManagerEnabled(s, c)
    ensures Inv(ManagerApply(s, c))
  {
    assert Count(s.workers) == s.rw.readers;
    hide MutexOk, LocksOk, SleepOk, ManagerOk, ManagerApply, ManagerEnabled;
    ManagerManager(s, c);
    ManagerMutex(s, c);
    ManagerLocks(s, c);
    ManagerSleep(s, c);
  }

  lemma StepKeeps(s: State, step: Step)
    requires Inv(s) && Enabled(s, step)
    ensures Inv(Apply(s, step))
  {
    match step
    case ByWorker(i, w) => { hide Inv, WorkerApply; WorkerKeeps(s, i, w); }
    case ByManager(c) => { hide Inv, ManagerApply; ManagerKeeps(s, c); }
    case Exiting =>
  }

  lemma {:induction false} CountNone(ws: seq<Worker>)
    requires forall k :: 0 <= k < |ws| ==> !Holds(ws[k])
    ensures Count(ws) == 0
    decreases |ws|
  {
    if |ws| > 0 {
      CountNone(ws[..|ws| - 1]);
    }
  }

  lemma {:induction false} Reachable(s: State, steps: seq<Step>)
    requires Init(s) && Execute(s, steps).Some?
    ensures Inv(Execute(s, steps).value)
  {
    if steps == [] {
      CountNone(s.workers);
    } else {
      hide Inv, Apply, Enabled;
      Reachable(s, steps[..|steps| - 1]);
      StepKeeps(Execute(s, steps[..|steps| - 1]).value, steps[|steps| - 1]);
    }
  }

  // -------------------------------------------------------------------- theorems

  ghost predicate Reached(s: State, init: State, steps: seq<Step>) {
    Init(init) && Execute(init, steps) == Some(s)
  }

  /** No FATAL_ASSERT of client.c or connect_client fails in any run of the manager loop with any workers. */
  lemma NeverCrashes(s: State, init: State, steps: seq<Step>)
    requires Reached(s, init, steps)
    ensures !s.crashed
  {
    Reachable(init, steps);
  }

  /** The manager is connecting, or has torn the connection down. */
  predicate ManagerOwnsConnection(m: Manager) {
    m.Connect? || m.Connecting? || m.Activate? || m.Disconnect? || m.Permanent? || m.Finished?
  }

  /** While a ClientLock is held the client is active and connected, and the manager keeps its hands off. */
  lemma HolderHasClient(s: State, init: State, steps: seq<Step>, i: nat)
    requires Reached(s, init, steps) && i < |s.workers| && Holds(s.workers[i])
    ensures s.client.isActive && s.client.socketsOpen && !s.client.isPermanentlyDeactivated
    ensures !ManagerOwnsConnection(s.manager) && !s.rw.writerActive
  {
    Reachable(init, steps);
    CountPositive(s.workers, i);
  }

  /** A worker inside read_lock, holding cond_mutex, meets neither a holding nor a waiting writer. */
  lemma ReadLockNeverBlocks(s: State, init: State, steps: seq<Step>, i: nat)
    requires Reached(s, init, steps) && i < |s.workers| && s.workers[i].ReadLocking?
    ensures s.mutex == Some(i) && s.rw.writers == 0 && !s.rw.writerActive
    ensures Enabled(s, ByWorker(i, TakeReadLock))
  {
    Reachable(init, steps);
  }

  /**
    No lost wake-up: no worker sleeps unsignalled while the client is lockable or
    permanently deactivated, and the manager does not sleep on when the last reader is gone.
   */
  lemma NoLostWakeUp(s: State, init: State, steps: seq<Step>)
    requires Reached(s, init, steps)
    ensures forall k :: 0 <= k < |s.workers| && s.workers[k] == Asleep(false) ==>
              !Lockable(s.client) && !s.client.isPermanentlyDeactivated
    ensures s.manager.WaitReaders? && s.manager.asleep ==> exists k :: 0 <= k < |s.workers| && Holds(s.workers[k])
  {
    Reachable(init, steps);
    if s.manager.WaitReaders? && s.manager.asleep {
      hide MutexOk, SleepOk;
      CountWitness(s.workers);
    }
  }

  lemma {:induction false} CountWitness(ws: seq<Worker>)
    requires Count(ws) > 0
    ensures exists k :: 0 <= k < |ws| && Holds(ws[k])
    decreases |ws|
  {
    var n := |ws| - 1;
    if !Holds(ws[n]) {
      CountWitness(ws[..n]);
      var k :| 0 <= k < n && Holds(ws[..n][k]);
      assert Holds(ws[k]);
    }
  }

  lemma HolderStep(s: State, step: Step, i: nat)
    requires Inv(s) && Enabled(s, step) && i < |s.workers| && Holds(s.workers[i])
    ensures Apply(s, step).client.connectionId == s.client.connectionId
    ensures Apply(s, step).client.socketsOpen
  {
    assert s.client.isActive && s.client.socketsOpen;
    hide MutexOk, LocksOk, SleepOk;
  }

  /** Worker `i` holds a lock at every point of the schedule from step `a` to step `b`. */
  ghost predicate HoldsThroughout(init: State, steps: seq<Step>, a: nat, b: nat, i: nat) {
    forall m :: a <= m <= b <= |steps| ==>
      && Execute(init, steps[..m]).Some?
      && i < |Execute(init, steps[..m]).value.workers|
      && Holds(Execute(init, steps[..m]).value.workers[i])
  }

  /** However long a lock is held, the connection does not change under it. */
  lemma {:induction false} ConnectionStableWhileHeld(init: State, steps: seq<Step>, a: nat, b: nat, i: nat)
    requires Init(init) && a <= b <= |steps| && HoldsThroughout(init, steps, a, b, i)
    ensures Execute(init, steps[..a]).Some? && Execute(init, steps[..b]).Some?
    ensures Execute(init, steps[..b]).value.client.connectionId == Execute(init, steps[..a]).value.client.connectionId
    ensures Execute(init, steps[..b]).value.client.socketsOpen
    decreases b
  {
    assert Execute(init, steps[..b]).Some?;
    hide Execute, Inv, Apply, Enabled;
    var t := Execute(init, steps[..b]).value;
    if a == b {
      HolderHasClient(t, init, steps[..b], i);
    } else {
      ConnectionStableWhileHeld(init, steps, a, b - 1, i);
      ExecuteLast(init, steps, b);
      Reachable(init, steps[..b - 1]);
      HolderStep(Execute(init, steps[..b - 1]).value, steps[b - 1], i);
    }
  }

  lemma ExecuteLast(init: State, steps: seq<Step>, b: nat)
    requires 0 < b <= |steps| && Execute(init, steps[..b]).Some?
    ensures Execute(init, steps[..b - 1]).Some? && Enabled(Execute(init, steps[..b - 1]).value, steps[b - 1])
    ensures Execute(init, steps[..b]).value == Apply(Execute(init, steps[..b - 1]).value, steps[b - 1])
  {
    assert steps[..b][..b - 1] == steps[..b - 1];
    hide Apply, Enabled;
  }

  /** Once deactivation has begun no new lock is granted, so the manager only waits for those already out. */
  lemma NoNewLocksWhileDeactivating(s: State, init: State, steps: seq<Step>, step: Step)
    requires Reached(s, init, steps) && Enabled(s, step) && s.client.isDeactivating
    ensures Apply(s, step).rw.readers <= s.rw.readers
  {
    Reachable(init, steps);
    match step
    case ByWorker(i, w) => WorkerGetsNoLock(s, i, w);
    case ByManager(c) => { hide Inv; ManagerEffect(s, c); hide ManagerApply; }
    case Exiting =>
  }

  lemma WorkerGetsNoLock(s: State, i: nat, w: WorkerStep)
    requires LocksOk(s.workers, s.rw.readers, s.client) && WorkerEnabled(s, i, w) && s.client.isDeactivating
    ensures WorkerApply(s, i, w).rw.readers <= s.rw.readers
  {}

  // ------------------------------------------------------------ progress

  /** Steps left to the manager until deactivate_client has cleared the flags. */
  function DeactivationRank(m: Manager): nat {
    match m
    case Deactivate(_) => 6
    case WaitReaders(_, _) => 5
    case WaitWriter(_) => 4
    case HoldWrite(_) => 3
    case WriteReleased(_) => 2
    case Clear(_) => 1
    case _ => 0
  }

  /** Once no lock is held, the manager's wait is over: each of its steps brings deactivation forward. */
  lemma ManagerProceeds(s: State, c: Choice)
    requires ManagerOk(s.manager, s.client, s.rw) && s.rw.readers == 0
    requires DeactivationRank(s.manager) > 0 && (s.manager.Clear? ==> s.mutex.None?)
    ensures ManagerEnabled(s, c)
    ensures DeactivationRank(ManagerApply(s, c).manager) < DeactivationRank(s.manager)
    ensures s.manager.Clear? ==> !ManagerApply(s, c).client.isActive
  {}

  /** While the client is deactivating, a worker that looks at the flags gives the mutex back at once. */
  lemma LookerLeaves(s: State, i: nat)
    requires MutexOk(s.workers, s.mutex) && LocksOk(s.workers, s.rw.readers, s.client)
    requires s.client.isDeactivating && s.mutex == Some(i) && !Holds(s.workers[i])
    ensures WorkerEnabled(s, i, Look) && WorkerApply(s, i, Look).mutex.None?
    ensures WorkerApply(s, i, Look).manager == s.manager && WorkerApply(s, i, Look).rw == s.rw
  {
    assert InSection(s.workers[i]);
  }

  /**
    Deactivation ends. While it is under way and no lock is held, either the manager's next
    step brings it forward, or it needs the mutex and the worker that has it gives it back in
    one step; the last step leaves the client inactive.
   */
  lemma DeactivationProceeds(s: State, init: State, steps: seq<Step>, c: Choice)
    requires Reached(s, init, steps) && DeactivationRank(s.manager) > 0
    requires forall k :: 0 <= k < |s.workers| ==> !Holds(s.workers[k])
    ensures s.manager.Clear? && s.mutex.Some? ==>
              var look := ByWorker(s.mutex.value, Look);
              Enabled(s, look) && Apply(s, look).mutex.None? && Apply(s, look).manager == s.manager
    ensures !(s.manager.Clear? && s.mutex.Some?) ==>
              && Enabled(s, ByManager(c))
              && DeactivationRank(Apply(s, ByManager(c)).manager) < DeactivationRank(s.manager)
              && (s.manager.Clear? ==> !Apply(s, ByManager(c)).client.isActive)
  {
    Reachable(init, steps);
    CountNone(s.workers);
    hide Reached, SleepOk, ManagerApply, WorkerApply;
    if s.manager.Clear? && s.mutex.Some? {
      LookerLeaves(s, s.mutex.value);
    } else {
      ManagerProceeds(s, c);
    }
  }

  /** The number of locks out, which every unlock lowers and, during deactivation, nothing raises. */
  lemma UnlockLowers(s: State, init: State, steps: seq<Step>, i: nat)
    requires Reached(s, init, steps) && i < |s.workers| && s.workers[i].Holding?
    ensures Enabled(s, ByWorker(i, Unlock))
    ensures Apply(s, ByWorker(i, Unlock)).rw.readers == s.rw.readers - 1 >= 0
  {
    Reachable(init, steps);
    CountPositive(s.workers, i);
    hide Reached, MutexOk, SleepOk, ManagerOk;
  }
}
