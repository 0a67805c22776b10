/**
  What the calls of protocol/server/client.c and the manager's turns come to: when a lock is
  granted, when it is refused, and how a client comes and goes. Each lemma speaks of a
  reachable state and of the steps that follow it.
 */
module ClientActivationLocks {
  import opened Wrappers
  import opened ClientActivation
  import opened ClientActivationProofs

  /** The client, the manager and the number of workers are untouched by a lock attempt. */
  predicate SameClient(s: State, t: State) {
    t.client == s.client && t.manager == s.manager && !t.crashed && |t.workers| == |s.workers|
  }

  /**
    A lock attempt, blocking or not, goes on to take the read lock exactly when the client is
    active and not deactivating. Otherwise a try, or any attempt on a permanently deactivated
    client, comes back empty-handed, and everything else goes to sleep; the mutex is free again.
   */
  lemma LockGrantedExactly(s: State, init: State, steps: seq<Step>, i: nat)
    requires Reached(s, init, steps) && i < |s.workers| && s.workers[i].Inside?
    ensures Enabled(s, ByWorker(i, Look))
    ensures var t := Apply(s, ByWorker(i, Look));
            && SameClient(s, t)
            && (t.workers[i].ReadLocking? <==> s.client.isActive && !s.client.isDeactivating)
            && (!(s.client.isActive && !s.client.isDeactivating) ==>
                  && t.mutex.None?
                  && t.workers[i] ==
                       if s.workers[i].try || s.client.isPermanentlyDeactivated then Out else Asleep(false))
  {
    Reachable(init, steps);
    hide Inv, Reached;
  }

  /** On a client that can be locked the attempt ends, undisturbed, with a lock held and one more reader. */
  lemma LockIsTaken(s: State, init: State, steps: seq<Step>, i: nat)
    requires Reached(s, init, steps) && i < |s.workers| && s.workers[i].Inside?
    requires s.client.isActive && !s.client.isDeactivating
    ensures Enabled(s, ByWorker(i, Look))
    ensures var a := Apply(s, ByWorker(i, Look));
            && Enabled(a, ByWorker(i, TakeReadLock))
            && var b := Apply(a, ByWorker(i, TakeReadLock));
               && Enabled(b, ByWorker(i, UnlockMutex))
               && var c := Apply(b, ByWorker(i, UnlockMutex));
                  && c.workers[i].Holding? && c.mutex.None? && SameClient(s, c)
                  && c.rw.readers == s.rw.readers + 1
  {
    ReachedNext(s, init, steps, ByWorker(i, Look));
    var a := Apply(s, ByWorker(i, Look));
    assert a.workers[i].ReadLocking?;
    ReadLockNeverBlocks(a, init, steps + [ByWorker(i, Look)], i);
  }

  lemma ReachedNext(s: State, init: State, steps: seq<Step>, step: Step)
    requires Reached(s, init, steps)
    ensures !s.crashed
    ensures Enabled(s, step) ==> Reached(Apply(s, step), init, steps + [step])
  {
    Reachable(init, steps);
    assert (steps + [step])[..|steps|] == steps;
    hide Apply, Enabled, Inv;
  }

  /** An attempt begins as soon as the mutex is free, and so does that of a sleeper that has been woken. */
  lemma AttemptBegins(s: State, init: State, steps: seq<Step>, i: nat, try: bool)
    requires Reached(s, init, steps) && i < |s.workers| && s.mutex.None?
    ensures s.workers[i].Out? ==>
              && Enabled(s, ByWorker(i, LockMutex(try)))
              && Apply(s, ByWorker(i, LockMutex(try))).workers[i] == Inside(try)
    ensures s.workers[i].Asleep? ==>
              && Enabled(s, ByWorker(i, WakeUp))
              && Apply(s, ByWorker(i, WakeUp)).workers[i] == Inside(false)
  {
    Reachable(init, steps);
    hide Inv, Reached;
  }

  // ------------------------------------------------------------ the manager's turns

  /**
    A client that connects becomes active: from the drawing of a connection id, a successful
    connect_client and activate_client lead, with the mutex free, to an active client with this
    id that can be locked, and to every sleeper signalled.
   */
  lemma ConnectActivates(s: State, init: State, steps: seq<Step>, draw: Choice, sockets: Choice, last: Choice)
    requires Reached(s, init, steps) && s.manager.Connect? && s.mutex.None? && sockets.ok
    ensures Enabled(s, ByManager(draw))
    ensures var a := Apply(s, ByManager(draw));
            && Enabled(a, ByManager(sockets))
            && var b := Apply(a, ByManager(sockets));
               && Enabled(b, ByManager(last))
               && var c := Apply(b, ByManager(last));
                  && c.manager.Top? && Lockable(c.client) && c.client.socketsOpen
                  && c.client.connectionId == draw.connectionId
                  && forall k :: 0 <= k < |c.workers| ==> c.workers[k] != Asleep(false)
  {
    Reachable(init, steps);
    hide MutexOk, LocksOk, SleepOk, Reached;
  }

  /** A client that does not connect stays inactive, and the manager tries again. */
  lemma FailedConnectRetries(s: State, init: State, steps: seq<Step>, c: Choice)
    requires Reached(s, init, steps) && s.manager.Connecting? && !c.ok
    ensures Enabled(s, ByManager(c))
    ensures var t := Apply(s, ByManager(c)); t.manager.Top? && !t.client.isActive
  {
    Reachable(init, steps);
    hide MutexOk, LocksOk, SleepOk, Reached;
  }

  /** A disconnect, or any holder's start_deactivating_client, makes the client unlockable. */
  lemma DeactivationStarts(s: State, init: State, steps: seq<Step>)
    requires Reached(s, init, steps) && s.mutex.None?
    ensures forall c: Choice :: s.manager.Polling? && c.quit ==>
              Enabled(s, ByManager(c)) && Apply(s, ByManager(c)).client.isDeactivating
    ensures forall i :: 0 <= i < |s.workers| && s.workers[i].Holding? ==>
              Enabled(s, ByWorker(i, StartDeact)) && Apply(s, ByWorker(i, StartDeact)).client.isDeactivating
  {
    Reachable(init, steps);
    hide MutexOk, SleepOk, Reached;
  }

  /** The manager notices: from the top of its loop two turns lead into deactivate_client. */
  lemma ManagerNotices(s: State, init: State, steps: seq<Step>, c: Choice, d: Choice)
    requires Reached(s, init, steps) && s.manager.Top? && !s.exiting && s.client.isDeactivating
    ensures Enabled(s, ByManager(c)) && Enabled(Apply(s, ByManager(c)), ByManager(d))
    ensures Apply(Apply(s, ByManager(c)), ByManager(d)).manager == Deactivate(InLoop)
  {
    Reachable(init, steps);
    hide MutexOk, LocksOk, SleepOk, Reached;
  }

  /** After a deactivation in the loop the sockets are closed, and the manager is back at the top, ready to connect. */
  lemma DisconnectCloses(s: State, init: State, steps: seq<Step>, c: Choice)
    requires Reached(s, init, steps) && s.manager.Disconnect?
    ensures Enabled(s, ByManager(c))
    ensures var t := Apply(s, ByManager(c));
            t.manager.Top? && !t.client.isActive && !t.client.socketsOpen
  {
    Reachable(init, steps);
    hide MutexOk, LocksOk, SleepOk, Reached;
  }
}
