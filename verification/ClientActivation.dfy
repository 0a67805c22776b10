/**
  The client activation lock (protocol/server/client.c) together with the manager
  loop that drives it (protocol/server/main.c) and the writer-preferring rwlock it is
  built on (protocol/whist/utils/rwlock.c), as a state machine: one manager, any
  number of workers. A step is one section under `cond_mutex`, one critical section
  of the rwlock, or one unprotected read or call of the manager. A FATAL_ASSERT that
  fails sets `crashed`.
 */
module ClientActivation {
  import opened Wrappers

  /** Why the manager deactivates: a disconnect in the loop, or the shutdown after it. */
  datatype Reason = InLoop | AtShutdown

  datatype Manager =
    | Top                                     // at the loop test
    | Connect                                 // about to call connect_client
    | Connecting                              // connection id drawn, sockets being created
    | Activate                                // about to call activate_client
    | Active                                  // saw is_active, about to read is_deactivating
    | Polling                                 // handling UDP messages and periodic updates
    | Deactivate(why: Reason)                 // about to call deactivate_client
    | WaitReaders(why: Reason, asleep: bool)  // write_lock: counted as a writer, waiting for readers
    | WaitWriter(why: Reason)                 // write_lock: no active readers seen
    | HoldWrite(why: Reason)
    | WriteReleased(why: Reason)              // write_unlock: no longer active, still counted
    | Clear(why: Reason)                      // about to mark the client inactive
    | Disconnect                              // about to destroy the socket contexts
    | Leave                                   // past the loop, about to read is_active
    | StartDeactivating                       // past the loop, client still active
    | Permanent                               // about to mark it permanently deactivated
    | Finished

  datatype Worker =
    | Out                        // holds nothing
    | Inside(try: bool)          // holds cond_mutex, about to look at the flags
    | Asleep(signalled: bool)    // in whist_wait_cond
    | ReadLocking                // holds cond_mutex, inside read_lock
    | Got                        // holds cond_mutex and the read lock
    | Holding                    // has a ClientLock

  datatype Client = Client(
    isActive: bool, isDeactivating: bool, isPermanentlyDeactivated: bool,
    connectionId: int, socketsOpen: bool)

  datatype RWLock = RWLock(readers: int, writers: int, writerActive: bool)

  datatype State = State(
    client: Client, rw: RWLock,
    mutex: Option<nat>,
    manager: Manager, workers: seq<Worker>,
    exiting: bool, crashed: bool)

  /** A live ClientLock, or the read lock it will be made of. */
  predicate Holds(w: Worker) {
    w.Got? || w.Holding?
  }

  predicate InSection(w: Worker) {
    w.Inside? || w.ReadLocking? || w.Got?
  }

  predicate Lockable(c: Client) {
    c.isActive && !c.isDeactivating
  }

  /** whist_broadcast_cond */
  function Broadcast(ws: seq<Worker>): (r: seq<Worker>)
    ensures |r| == |ws|
    ensures forall k :: 0 <= k < |ws| ==> r[k] == if ws[k].Asleep? then Asleep(true) else ws[k]
  {
    seq(|ws|, k requires 0 <= k < |ws| => if ws[k].Asleep? then Asleep(true) else ws[k])
  }

  function SetWorker(s: State, i: nat, w: Worker): State
    requires i < |s.workers|
  {
    s.(workers := s.workers[i := w])
  }

  // ---------------------------------------------------------------- the workers

  datatype WorkerStep = LockMutex(try: bool) | Look | WakeUp | TakeReadLock | UnlockMutex | StartDeact | Unlock

  /** Wake-ups may be spurious. */
  predicate WorkerEnabled(s: State, i: nat, step: WorkerStep) {
    && i < |s.workers|
    && match step
       case LockMutex(_) => s.workers[i].Out? && s.mutex.None?
       case Look => s.workers[i].Inside?
       case WakeUp => s.workers[i].Asleep? && s.mutex.None?
       case TakeReadLock => s.workers[i].ReadLocking? && s.rw.writers == 0
       case UnlockMutex => s.workers[i].Got?
       case StartDeact => s.workers[i].Holding? && s.mutex.None?
       case Unlock => s.workers[i].Holding?
  }

  /** The tests inside client_active_lock and client_active_trylock. */
  function LookAtFlags(s: State, i: nat, try: bool): State
    requires i < |s.workers|
  {
    if Lockable(s.client) then SetWorker(s, i, ReadLocking)
    else if try || s.client.isPermanentlyDeactivated then SetWorker(s, i, Out).(mutex := None)
    else SetWorker(s, i, Asleep(false)).(mutex := None)
  }

  /** read_unlock wakes the manager when the last reader leaves. */
  function WakeManager(m: Manager, readers: int): Manager {
    if m.WaitReaders? && readers == 0 then m.(asleep := false) else m
  }

  function WorkerApply(s: State, i: nat, step: WorkerStep): State
    requires WorkerEnabled(s, i, step)
  {
    match step
    case LockMutex(try) => SetWorker(s, i, Inside(try)).(mutex := Some(i))
    case Look => LookAtFlags(s, i, s.workers[i].try)
    case WakeUp => SetWorker(s, i, Inside(false)).(mutex := Some(i))
    case TakeReadLock => SetWorker(s, i, Got).(rw := s.rw.(readers := s.rw.readers + 1))
    case UnlockMutex => SetWorker(s, i, Holding).(mutex := None)
    case StartDeact => StartDeactivatingClient(s)
    case Unlock =>
      if s.client.isActive then
        SetWorker(s, i, Out).(rw := s.rw.(readers := s.rw.readers - 1),
                              manager := WakeManager(s.manager, s.rw.readers - 1))
      else s.(crashed := true)
  }

  function StartDeactivatingClient(s: State): State {
    if s.client.isActive then s.(client := s.client.(isDeactivating := true)) else s.(crashed := true)
  }

  // ---------------------------------------------------------------- the manager

  /** What the world decides: timeouts, connection ids, results, UDP disconnects. */
  datatype Choice = Choice(timeout: bool, connectionId: int, ok: bool, quit: bool)

  predicate NeedsMutex(m: Manager) {
    m.Activate? || m.Clear? || m.StartDeactivating? || m.Permanent?
  }

  /** A sleeping manager may wake up spuriously; it then looks at the readers again. */
  predicate ManagerEnabled(s: State, c: Choice) {
    && !s.manager.Finished?
    && (NeedsMutex(s.manager) || (s.manager.Polling? && c.quit) ==> s.mutex.None?)
  }

  function Go(s: State, m: Manager): State {
    s.(manager := m)
  }

  function Crash(s: State): State {
    s.(crashed := true)
  }

  /** The manager's steps up to the point where the client is activated. */
  function ManagerConnects(s: State, c: Choice): State {
    match s.manager
    case Top =>
      Go(s, if s.exiting then Leave else if s.client.isActive then Active else if c.timeout then Leave else Connect)
    case Connect =>
      if s.client.isActive then Crash(s) else Go(s, Connecting).(client := s.client.(connectionId := c.connectionId))
    case Connecting =>
      if c.ok then Go(s, Activate).(client := s.client.(socketsOpen := true)) else Go(s, Top)
    case Active => Go(s, if s.client.isDeactivating then Deactivate(InLoop) else Polling)
    case Polling => if c.quit then Go(StartDeactivatingClient(s), Top) else Go(s, Top)
    case _ => s
  }

  /** deactivate_client and what follows it. */
  function ManagerDeactivates(s: State): State {
    match s.manager
    case Deactivate(why) =>
      if s.client.isActive && s.client.isDeactivating
      then Go(s, WaitReaders(why, false)).(rw := s.rw.(writers := s.rw.writers + 1)) else Crash(s)
    case WaitReaders(why, _) => Go(s, if s.rw.readers > 0 then WaitReaders(why, true) else WaitWriter(why))
    case WaitWriter(why) => if s.rw.writerActive then s else Go(s, HoldWrite(why)).(rw := s.rw.(writerActive := true))
    case HoldWrite(why) => Go(s, WriteReleased(why)).(rw := s.rw.(writerActive := false))
    case WriteReleased(why) => Go(s, Clear(why)).(rw := s.rw.(writers := s.rw.writers - 1))
    case Clear(why) =>
      Go(s, if why.InLoop? then Disconnect else Permanent)
      .(client := s.client.(isDeactivating := false, isActive := false))
    case Disconnect => Go(s, Top).(client := s.client.(socketsOpen := false))
    case Leave => Go(s, if s.client.isActive then StartDeactivating else Permanent)
    case StartDeactivating => Go(StartDeactivatingClient(s), Deactivate(AtShutdown))
    case _ => s
  }

  /** activate_client */
  function ActivateClient(s: State): State {
    Go(s, Top).(client := s.client.(isActive := true), workers := Broadcast(s.workers))
  }

  /** permanently_deactivate_client */
  function PermanentlyDeactivate(s: State): State {
    if s.client.isActive then Crash(s)
    else Go(s, Finished).(client := s.client.(isPermanentlyDeactivated := true), workers := Broadcast(s.workers))
  }

  function ManagerApply(s: State, c: Choice): State {
    if s.manager.Activate? then ActivateClient(s)
    else if s.manager.Permanent? then PermanentlyDeactivate(s)
    else if s.manager.Top? || s.manager.Connect? || s.manager.Connecting? || s.manager.Active? || s.manager.Polling?
    then ManagerConnects(s, c)
    else ManagerDeactivates(s)
  }

  // -------------------------------------------------------------------- the runs

  datatype Step = ByWorker(i: nat, step: WorkerStep) | ByManager(choice: Choice) | Exiting

  predicate Enabled(s: State, step: Step) {
    !s.crashed &&
    match step
    case ByWorker(i, w) => WorkerEnabled(s, i, w)
    case ByManager(c) => ManagerEnabled(s, c)
    case Exiting => true
  }

  function Apply(s: State, step: Step): State
    requires Enabled(s, step)
  {
    match step
    case ByWorker(i, w) => WorkerApply(s, i, w)
    case ByManager(c) => ManagerApply(s, c)
    case Exiting => s.(exiting := true)
  }

  predicate Init(s: State) {
    && !s.client.isActive && !s.client.isDeactivating && !s.client.isPermanentlyDeactivated && !s.client.socketsOpen
    && s.rw == RWLock(0, 0, false) && s.mutex.None? && s.manager.Top? && !s.exiting && !s.crashed
    && forall k :: 0 <= k < |s.workers| ==> s.workers[k].Out?
  }

  /** The state after the first steps of a schedule; None when some step was not enabled. */
  function Execute(s: State, steps: seq<Step>): Option<State> {
    if steps == [] then Some(s)
    else
      var before := Execute(s, steps[..|steps| - 1]);
      if before.Some? && Enabled(before.value, steps[|steps| - 1])
      then Some(Apply(before.value, steps[|steps| - 1]))
      else None
  }
}
