/**
  The clipboard synchronizer (protocol/whist/clipboard/clipboard_synchronizer.c) as
  a state machine: any number of transfer threads, one caller of the public
  functions, one mutex, two condition variables, one setup semaphore. Each step is
  one section run under `clipboard_action_mutex`, one semaphore operation, or one
  call of the operating system's clipboard.

  A worker is named by its creation number. `tid` is its system thread id, which a
  later worker may get again once this one has exited.
 */
module ClipboardSync {
  import opened Wrappers
  import opened ClipboardChunks

  datatype Action = Push | Pull

  /** Where a transfer thread is. `signalled` is set by a broadcast on the condition it sleeps on. */
  datatype Phase =
    | Setup                           // created, its pointers not yet published
    | Fetching                        // a pull, inside get_os_clipboard
    | Ready                           // about to take the mutex
    | WaitContinue(signalled: bool)   // asleep on continue_action_condvar
    | WaitSlot(signalled: bool)       // asleep on os_clipboard_setting_condvar
    | Setting                         // marked as setter, OS clipboard not yet written
    | SetDone                         // OS clipboard written, still marked as setter
    | Leaving                         // past its last use of shared state
    | Exited

  datatype Worker = Worker(
    tid: nat, action: Action, phase: Phase,
    aborting: bool, complete: bool, buffer: Option<Clip>,
    from: int,          // history: position of its START among the arrivals
    sent: seq<Chunk>)   // history: the chunks pulled out of its buffer

  /** Inside start_clipboard_transfer the caller holds the mutex and waits for the new thread. */
  datatype Caller = Idle | StartingPush(chunk: Chunk) | StartingPull

  /** History: what reached the synchronizer, in the order the mutex was taken. */
  datatype Arrival = Got(chunk: Chunk) | StartFailed | LocalUpdate | Shutdown

  /** History: a completed push, with the positions of its START and FINAL. */
  datatype Done = Done(w: nat, from: int, to: int)

  /** History: a push became the setter when `completions` pushes had completed. */
  datatype Begin = Begin(w: nat, completions: nat)

  datatype Write = Write(w: nat, clip: Clip)

  datatype State = State(
    chunkSize: nat,
    initialized: bool,
    caller: Caller,
    setupPosts: nat,
    workers: seq<Worker>,
    active: Option<nat>,
    action: Option<Action>,
    abortPtr: Option<nat>, completePtr: Option<nat>, bufferPtr: Option<nat>,
    pulledBytes: nat, isStartDone: bool,
    settingOs: bool, queued: nat,
    arrivals: seq<Arrival>, done: seq<Done>, begun: seq<Begin>, written: seq<Write>)

  // ---------------------------------------------------------------- the code

  function Wake(w: Worker): Worker {
    if w.phase.WaitContinue? then w.(phase := WaitContinue(true)) else w
  }

  function WakeForSlot(w: Worker): Worker {
    if w.phase.WaitSlot? then w.(phase := WaitSlot(true)) else w
  }

  /** whist_broadcast_cond(continue_action_condvar) */
  function BroadcastContinue(ws: seq<Worker>): (r: seq<Worker>)
    ensures |r| == |ws| && forall k :: 0 <= k < |ws| ==> r[k] == Wake(ws[k])
  {
    seq(|ws|, k requires 0 <= k < |ws| => Wake(ws[k]))
  }

  /** whist_broadcast_cond(os_clipboard_setting_condvar) */
  function BroadcastSlot(ws: seq<Worker>): (r: seq<Worker>)
    ensures |r| == |ws| && forall k :: 0 <= k < |ws| ==> r[k] == WakeForSlot(ws[k])
  {
    seq(|ws|, k requires 0 <= k < |ws| => WakeForSlot(ws[k]))
  }

  /** The worker a published pointer points into, if any. */
  predicate Points(s: State, p: Option<nat>) {
    p.Some? && p.value < |s.workers|
  }

  predicate IsActive(s: State, a: Action) {
    && s.initialized
    && s.action == Some(a)
    && Points(s, s.abortPtr) && !s.workers[s.abortPtr.value].aborting
    && Points(s, s.completePtr) && !s.workers[s.completePtr.value].complete
    && Points(s, s.bufferPtr) && s.workers[s.bufferPtr.value].buffer.Some?
  }

  /** *complete_ptr = true, and for a push the thread becomes the queued setter. */
  function MarkComplete(s: State): State {
    if !Points(s, s.completePtr) then s
    else
      var w := s.completePtr.value;
      var s1 := s.(workers := s.workers[w := s.workers[w].(complete := true)]);
      if s.action == Some(Push) && Points(s, s.active) then
        s1.(queued := s.workers[s.active.value].tid,
            workers := BroadcastSlot(s1.workers),
            done := s.done + [Done(s.active.value, s.workers[s.active.value].from, |s.arrivals| - 1)])
      else s1
  }

  function MarkAborting(s: State): State {
    if !Points(s, s.abortPtr) then s
    else s.(workers := s.workers[s.abortPtr.value := s.workers[s.abortPtr.value].(aborting := true)])
  }

  function Detach(s: State): State {
    s.(action := None, pulledBytes := 0, workers := BroadcastContinue(s.workers),
       active := None, abortPtr := None, completePtr := None, bufferPtr := None)
  }

  function FinishActive(s: State, actionComplete: bool): State {
    Detach(if actionComplete then MarkComplete(s) else MarkAborting(s))
  }

  function NewWorker(a: Action, tid: nat, from: int): Worker {
    Worker(tid, a, Setup, false, false, if a.Push? then Some(Clip(NoClip, [])) else None, from, [])
  }

  /** push_clipboard_chunk from its test for an active push to its end. */
  function AppendChunk(s: State, chunk: Chunk): State {
    if !IsActive(s, Push) then s
    else
      var w := s.bufferPtr.value;
      var b := Pushed(s.workers[w].buffer.value, chunk);
      var s1 := s.(workers := s.workers[w := s.workers[w].(buffer := Some(b))]);
      if chunk.pos.Final? then FinishActive(s1, true) else s1
  }

  /** pull_clipboard_chunk from its test for an active pull to its end. */
  function CutChunk(s: State): State {
    if !IsActive(s, Pull) then s
    else
      var w := s.bufferPtr.value;
      var clip := s.workers[w].buffer.value;
      if s.pulledBytes > |clip.data| then s
      else
        var chunk := Cut(clip, s.pulledBytes, s.isStartDone, s.chunkSize);
        var s1 := s.(workers := s.workers[w := s.workers[w].(sent := s.workers[w].sent + [chunk])],
                     isStartDone := true);
        var s2 := if chunk.pos.Final? then FinishActive(s1, true) else s1;
        s2.(pulledBytes := s2.pulledBytes + |chunk.data|)
  }

  function SetPhase(s: State, w: nat, phase: Phase): State
    requires w < |s.workers|
  {
    s.(workers := s.workers[w := s.workers[w].(phase := phase)])
  }

  /** Mark the OS clipboard as being set and give up the place in the queue. */
  function TakeSlot(s: State, i: nat): State
    requires i < |s.workers|
  {
    SetPhase(s, i, if s.workers[i].aborting then Leaving else Setting)
    .(settingOs := true, queued := 0, begun := s.begun + [Begin(i, |s.done|)])
  }

  /** A later push has the place in the queue: this one will not set the OS clipboard. */
  function Overtaken(s: State, i: nat): State
    requires i < |s.workers|
  {
    s.(workers := s.workers[i := s.workers[i].(aborting := true, phase := Leaving)])
  }

  /** The push thread's code between one release of the mutex and the next. */
  function RunPush(s: State, i: nat): State
    requires i < |s.workers|
  {
    var w := s.workers[i];
    if !w.complete && !w.aborting then SetPhase(s, i, WaitContinue(false))
    else if !w.complete then SetPhase(s, i, Leaving)
    else if w.tid == s.queued && s.settingOs then SetPhase(s, i, WaitSlot(false))
    else if w.tid == s.queued then TakeSlot(s, i)
    else Overtaken(s, i)
  }

  /** A pull publishes its buffer and sleeps. */
  function OfferBuffer(s: State, i: nat): State
    requires i < |s.workers|
  {
    SetPhase(s, i, WaitContinue(false)).(bufferPtr := Some(i))
  }

  /** The pull thread's code between one release of the mutex and the next. */
  function RunPull(s: State, i: nat): State
    requires i < |s.workers|
  {
    if !s.workers[i].complete && !s.workers[i].aborting then OfferBuffer(s, i)
    else SetPhase(s, i, Leaving)
  }

  /** A new thread publishes pointers to its locals and posts the setup semaphore. */
  function PublishWorker(s: State, w: nat): State
    requires w < |s.workers|
  {
    if s.workers[w].action.Push? then
      SetPhase(s, w, Ready).(abortPtr := Some(w), completePtr := Some(w), bufferPtr := Some(w),
                             action := Some(Push), setupPosts := s.setupPosts + 1)
    else
      SetPhase(s, w, Fetching).(abortPtr := Some(w), completePtr := Some(w),
                                action := Some(Pull), isStartDone := false,
                                setupPosts := s.setupPosts + 1)
  }

  /** get_os_clipboard has returned; None is NULL. */
  function FetchClip(s: State, w: nat, clip: Option<Clip>): State
    requires w < |s.workers|
  {
    s.(workers := s.workers[w := s.workers[w].(phase := Ready, buffer := clip)])
  }

  /** set_os_clipboard */
  function WriteClip(s: State, w: nat): State
    requires w < |s.workers|
  {
    SetPhase(s, w, SetDone).(written :=
      if s.workers[w].buffer.Some? then s.written + [Write(w, s.workers[w].buffer.value)] else s.written)
  }

  function ReleaseSlot(s: State, w: nat): State
    requires w < |s.workers|
  {
    var s1 := SetPhase(s, w, Leaving);
    s1.(settingOs := false, workers := BroadcastSlot(s1.workers))
  }

  /** Any arrival that aborts the transfer in progress. */
  function Interrupt(s: State, a: Arrival): State {
    FinishActive(s.(arrivals := s.arrivals + [a]), false)
  }

  /** start_clipboard_transfer after the abort, up to its wait on the setup semaphore. */
  function AddWorker(s: State, a: Action, tid: nat, waiting: Caller): State {
    s.(workers := s.workers + [NewWorker(a, tid, |s.arrivals| - 1)],
       active := Some(|s.workers|), caller := waiting)
  }

  /** The caller goes on once the new thread has posted. */
  function ResumeCaller(s: State): State
    requires s.setupPosts > 0
  {
    var s1 := s.(setupPosts := s.setupPosts - 1, caller := Idle);
    if s.caller.StartingPush? then AppendChunk(s1, s.caller.chunk) else s1
  }

  datatype Step =
    | PushChunk(chunk: Chunk, created: bool, tid: nat)
    | PollPull(updated: bool, created: bool, tid: nat)
    | Resume
    | Publish(w: nat)
    | Fetch(w: nat, clip: Option<Clip>)
    | Run(w: nat)
    | WriteOs(w: nat)
    | EndSet(w: nat)
    | Exit(w: nat)
    | Destroy

  predicate Live(w: Worker) {
    !w.phase.Exited?
  }

  /** The system hands out a nonzero id that no live thread has. */
  predicate FreshTid(s: State, tid: nat) {
    tid != 0 && forall k :: 0 <= k < |s.workers| && Live(s.workers[k]) ==> s.workers[k].tid != tid
  }

  predicate At(s: State, w: nat, phase: Phase) {
    w < |s.workers| && s.workers[w].phase == phase
  }

  /** Wake-ups may be spurious, so a sleeper may run whether or not it was signalled. */
  predicate Runnable(w: Worker) {
    w.phase.Ready? || w.phase.WaitContinue? || w.phase.WaitSlot?
  }

  predicate Enabled(s: State, step: Step) {
    match step
    case PushChunk(_, _, tid) => s.initialized && s.caller.Idle? && FreshTid(s, tid)
    case PollPull(_, _, tid) => s.initialized && s.caller.Idle? && FreshTid(s, tid)
    case Resume => !s.caller.Idle? && s.setupPosts > 0
    case Publish(w) => At(s, w, Setup)
    case Fetch(w, _) => At(s, w, Fetching)
    case Run(w) => s.caller.Idle? && w < |s.workers| && Runnable(s.workers[w])
    case WriteOs(w) => At(s, w, Setting)
    case EndSet(w) => s.caller.Idle? && At(s, w, SetDone)
    case Exit(w) => At(s, w, Leaving)
    case Destroy => s.initialized && s.caller.Idle?
  }

  function Apply(s: State, step: Step): State
    requires Enabled(s, step)
  {
    match step
    case PushChunk(chunk, created, tid) =>
      if !chunk.pos.Start? then AppendChunk(s.(arrivals := s.arrivals + [Got(chunk)]), chunk)
      else if created then AddWorker(Interrupt(s, Got(chunk)), Push, tid, StartingPush(chunk))
      else Interrupt(s, StartFailed)
    case PollPull(updated, created, tid) =>
      if !updated then CutChunk(s)
      else if created then AddWorker(Interrupt(s, LocalUpdate), Pull, tid, StartingPull)
      else Interrupt(s, LocalUpdate)
    case Resume => ResumeCaller(s)
    case Publish(w) => PublishWorker(s, w)
    case Fetch(w, clip) => FetchClip(s, w, clip)
    case Run(w) => if s.workers[w].action.Push? then RunPush(s, w) else RunPull(s, w)
    case WriteOs(w) => WriteClip(s, w)
    case EndSet(w) => ReleaseSlot(s, w)
    case Exit(w) => SetPhase(s, w, Exited)
    case Destroy => Interrupt(s, Shutdown).(initialized := false)
  }

  predicate Init(s: State) {
    && s.chunkSize > 0 && s.initialized && s.caller.Idle? && s.setupPosts == 0 && s.workers == []
    && s.active.None? && s.action.None? && s.abortPtr.None? && s.completePtr.None? && s.bufferPtr.None?
    && s.pulledBytes == 0 && !s.settingOs && s.queued == 0
    && s.arrivals == [] && s.done == [] && s.begun == [] && s.written == []
  }

  /** The states a schedule passes through; None when some step of it is not enabled. */
  function Execute(s: State, steps: seq<Step>): Option<State> {
    if steps == [] then Some(s)
    else
      var before := Execute(s, steps[..|steps| - 1]);
      if before.Some? && Enabled(before.value, steps[|steps| - 1])
      then Some(Apply(before.value, steps[|steps| - 1]))
      else None
  }
}
