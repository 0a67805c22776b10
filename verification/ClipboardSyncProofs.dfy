/** What every run of the clipboard synchronizer keeps. */
module ClipboardSyncProofs {
  import opened Wrappers
  import opened ClipboardChunks
  import opened ClipboardSync

  // ------------------------------------------------------------ the invariant

  /** What a worker's program point says about its own flags. */
  ghost predicate WorkerOk(w: Worker) {
    && w.tid != 0
    && (w.action.Push? ==> w.buffer.Some?)
    && (w.aborting && w.complete ==> w.phase.Leaving? || w.phase.Exited?)
    && match w.phase
       case Setup => !w.aborting && !w.complete && w.sent == [] && (w.action.Pull? ==> w.buffer.None?)
       case Fetching => w.action.Pull? && w.buffer.None? && !w.complete
       case Ready => true
       case WaitContinue(signalled) => signalled || (!w.aborting && !w.complete)
       case WaitSlot(_) => w.action.Push? && w.complete
       case Setting => w.action.Push? && w.complete
       case SetDone => w.action.Push? && w.complete
       case Leaving => w.aborting || w.complete
       case Exited => w.aborting || w.complete
  }

  ghost predicate WorkersOk(s: State) {
    && s.chunkSize > 0
    && (forall k :: 0 <= k < |s.workers| ==> WorkerOk(s.workers[k]))
    && (forall j, k :: 0 <= j < k < |s.workers| && Live(s.workers[j]) && Live(s.workers[k])
          ==> s.workers[j].tid != s.workers[k].tid)
  }

  /** A transfer that has been set up and told neither to stop nor that it is complete. */
  ghost predicate Running(w: Worker) {
    !w.aborting && !w.complete
  }

  /** Every published pointer points into worker `i`. */
  ghost predicate PublishedBy(s: State, i: nat)
    requires i < |s.workers|
  {
    && s.abortPtr == Some(i) && s.completePtr == Some(i)
    && s.action == Some(s.workers[i].action)
  }

  ghost predicate NothingPublished(s: State) {
    s.abortPtr.None? && s.completePtr.None? && s.bufferPtr.None? && s.action.None?
  }

  /**
    Ownership. The only worker with neither flag set is the newest one, while it is
    the active one; the published pointers are its own.
   */
  ghost predicate Ownership(s: State) {
    && (forall k :: 0 <= k < |s.workers| && Running(s.workers[k]) ==> s.active == Some(k))
    && (s.active.Some? ==>
          && s.active.value == |s.workers| - 1
          && Running(s.workers[s.active.value]))
    && (s.active.None? ==> s.caller.Idle? && NothingPublished(s))
    && (s.caller.Idle? ==> s.setupPosts == 0)
    && (!s.caller.Idle? ==> s.initialized)
    && (s.active.Some? ==> ActiveOk(s, s.active.value))
  }

  ghost predicate ActiveOk(s: State, i: nat)
    requires i < |s.workers|
  {
    var w := s.workers[i];
    match w.phase
    case Setup =>
      && NothingPublished(s) && s.setupPosts == 0
      && (if w.action.Push? then s.caller.StartingPush? else s.caller.StartingPull?)
    case Fetching => PublishedBy(s, i) && s.bufferPtr.None? && CallerOk(s, w.action)
    case Ready =>
      && PublishedBy(s, i) && CallerOk(s, w.action)
      && (if w.action.Push? then s.bufferPtr == Some(i) else s.bufferPtr.None?)
    case WaitContinue(_) => PublishedBy(s, i) && s.bufferPtr == Some(i) && s.caller.Idle?
    case _ => false
  }

  /** After the new thread has posted, the caller has one post to consume. */
  ghost predicate CallerOk(s: State, a: Action) {
    s.caller.Idle? || (s.setupPosts == 1 && if a.Push? then s.caller.StartingPush? else s.caller.StartingPull?)
  }

  /** The setter of the OS clipboard is the last worker that became one. */
  ghost predicate Slot(s: State) {
    && (forall k :: 0 <= k < |s.workers| && (s.workers[k].phase.Setting? || s.workers[k].phase.SetDone?)
          ==> s.settingOs && |s.begun| > 0 && s.begun[|s.begun| - 1].w == k)
    && (if s.settingOs then
          && |s.begun| > 0
          && var k := s.begun[|s.begun| - 1].w;
             && k < |s.workers|
             && (if s.workers[k].phase.Setting? then |s.written| == |s.begun| - 1
                 else s.workers[k].phase.SetDone? && |s.written| == |s.begun|)
        else |s.written| == |s.begun|)
  }

  /** The queued id belongs to the push that completed last, while that push still waits for its turn. */
  ghost predicate Queue(s: State) {
    && (if s.queued != 0 then
          && |s.done| > 0
          && var k := s.done[|s.done| - 1].w;
             && k < |s.workers| && s.workers[k].tid == s.queued
             && s.workers[k].action.Push? && s.workers[k].complete && Runnable(s.workers[k])
             && (|s.begun| > 0 ==> s.begun[|s.begun| - 1].completions < |s.done|)
        else if |s.done| == 0 then |s.begun| == 0
        else |s.begun| > 0 && s.begun[|s.begun| - 1].completions == |s.done|)
    && (forall k :: 0 <= k < |s.workers| && s.workers[k].phase == WaitSlot(false)
          ==> s.settingOs && s.queued == s.workers[k].tid)
  }

  /** Completions are pushes, in creation order. */
  ghost predicate Completions(s: State) {
    && (forall j :: 0 <= j < |s.done| ==>
          && s.done[j].w < |s.workers|
          && s.workers[s.done[j].w].action.Push? && s.workers[s.done[j].w].complete)
    && (forall j, k :: 0 <= j < k < |s.done| ==> s.done[j].w < s.done[k].w)
  }

  /** Every setter was the latest completion when its turn came, each a later completion than the one before. */
  ghost predicate Turns(done: seq<Done>, begun: seq<Begin>) {
    && (forall j :: 0 <= j < |begun| ==>
          && 0 < begun[j].completions <= |done|
          && done[begun[j].completions - 1].w == begun[j].w)
    && (forall j, k :: 0 <= j < k < |begun| ==> begun[j].completions < begun[k].completions)
  }

  /** The OS clipboard was written by the setters, one write for each turn, in the order of the turns. */
  ghost predicate Writes(begun: seq<Begin>, written: seq<Write>) {
    && |written| <= |begun|
    && (forall j :: 0 <= j < |written| ==> written[j].w == begun[j].w)
  }

  ghost predicate History(s: State) {
    Completions(s) && Turns(s.done, s.begun) && Writes(s.begun, s.written)
  }

  // ------------------------------------------------------------------ streams

  /** `a` is a START followed only by MIDDLEs. */
  ghost predicate IsOpenStream(a: seq<Arrival>) {
    && |a| > 0
    && a[0].Got? && a[0].chunk.pos.Start?
    && forall k :: 0 < k < |a| ==> a[k].Got? && a[k].chunk.pos.Middle?
  }

  /** An open stream that reaches to the last arrival. */
  ghost predicate OpenFrom(a: seq<Arrival>, from: int) {
    0 <= from < |a| && IsOpenStream(a[from..])
  }

  /** Arrivals `from` to `to` are one whole START..FINAL chunk stream, with nothing else in between. */
  ghost predicate IsStream(a: seq<Arrival>, from: int, to: int) {
    && 0 <= from < to < |a|
    && IsOpenStream(a[from..to])
    && a[to].Got? && a[to].chunk.pos.Final?
  }

  /** The bytes of the chunks among the arrivals, in arrival order. */
  ghost function StreamBytes(a: seq<Arrival>): seq<Byte> {
    if |a| == 0 then []
    else StreamBytes(a[..|a| - 1]) + if a[|a| - 1].Got? then a[|a| - 1].chunk.data else []
  }

  /** The clipboard a stream carries: the START chunk's type, all the bytes. */
  ghost function StreamClip(a: seq<Arrival>): Clip
    requires |a| > 0 && a[0].Got?
  {
    Clip(a[0].chunk.kind, StreamBytes(a))
  }

  /** A completed push holds the clipboard of its own stream, and a setter wrote the buffer it holds. */
  ghost predicate DoneStreams(s: State) {
    && (forall j :: 0 <= j < |s.done| ==>
          && IsStream(s.arrivals, s.done[j].from, s.done[j].to)
          && s.done[j].w < |s.workers| && s.workers[s.done[j].w].complete
          && s.workers[s.done[j].w].buffer == Some(StreamClip(s.arrivals[s.done[j].from..s.done[j].to + 1])))
    && (forall j :: 0 <= j < |s.written| ==>
          && s.written[j].w < |s.workers|
          && s.workers[s.written[j].w].action.Push? && s.workers[s.written[j].w].complete
          && s.workers[s.written[j].w].buffer == Some(s.written[j].clip))
  }

  /** The active push holds what has arrived of the stream that is still open. */
  ghost predicate ActiveStream(s: State) {
    s.active.Some? && s.active.value < |s.workers| && s.workers[s.active.value].action.Push? ==>
      var w := s.workers[s.active.value];
      && OpenFrom(s.arrivals, w.from)
      && (if s.caller.StartingPush? then
            w.from == |s.arrivals| - 1 && s.arrivals[w.from] == Got(s.caller.chunk)
          else w.buffer == Some(StreamClip(s.arrivals[w.from..])))
  }

  ghost predicate Streams(s: State) {
    DoneStreams(s) && ActiveStream(s)
  }

  /** No stream is lost: each whole stream is a completion... */
  ghost predicate WholeDone(s: State) {
    forall from, to :: IsStream(s.arrivals, from, to) ==> IsDone(s.done, from, to)
  }

  /** ... and an unfinished one is the active push. */
  ghost predicate OpenIsActive(s: State) {
    forall from :: OpenFrom(s.arrivals, from) ==>
      && s.active.Some? && s.active.value < |s.workers|
      && s.workers[s.active.value].action.Push? && s.workers[s.active.value].from == from
  }

  ghost predicate IsDone(done: seq<Done>, from: int, to: int) {
    exists j :: 0 <= j < |done| && done[j].from == from && done[j].to == to
  }

  // -------------------------------------------------------------------- pulls

  /** All the chunks of a pull of `clip`. */
  ghost function Whole(s: State, clip: Clip): seq<Chunk>
    requires s.chunkSize > 0
  {
    Remaining(clip, 0, false, s.chunkSize)
  }

  /** Chunks leave a pull in order; a complete pull has sent exactly the whole transfer. */
  ghost predicate PullOk(s: State, k: nat)
    requires k < |s.workers| && s.chunkSize > 0
  {
    var w := s.workers[k];
    w.action.Pull? ==>
      if w.buffer.None? then
        && w.sent == [] && !w.complete
        && (!w.aborting ==> s.pulledBytes == 0 && (w.phase.Setup? || !s.isStartDone))
      else if w.complete then w.sent == Whole(s, w.buffer.value)
      else if w.aborting then w.sent <= Whole(s, w.buffer.value)
      else
        && s.pulledBytes <= |w.buffer.value.data|
        && w.sent + Remaining(w.buffer.value, s.pulledBytes, s.isStartDone, s.chunkSize) == Whole(s, w.buffer.value)
  }

  ghost predicate Pulls(s: State) {
    && s.chunkSize > 0
    && (forall k :: 0 <= k < |s.workers| ==> PullOk(s, k))
  }

  ghost predicate Inv(s: State) {
    && WorkersOk(s) && Ownership(s) && Slot(s) && Queue(s) && History(s)
    && Streams(s) && WholeDone(s) && OpenIsActive(s) && Pulls(s)
  }

  // ------------------------------------------------- steps of one worker: frames

  ghost predicate SameHistory(s: State, t: State) {
    && t.chunkSize == s.chunkSize && t.caller == s.caller && t.active == s.active
    && t.arrivals == s.arrivals && t.done == s.done && t.begun == s.begun && t.written == s.written
  }

  /** Only phases and abort flags may differ. */
  ghost predicate SameBodies(s: State, t: State) {
    && |t.workers| == |s.workers|
    && forall k :: 0 <= k < |s.workers| ==>
         && t.workers[k].tid == s.workers[k].tid && t.workers[k].action == s.workers[k].action
         && t.workers[k].complete == s.workers[k].complete && t.workers[k].buffer == s.workers[k].buffer
         && t.workers[k].from == s.workers[k].from && t.workers[k].sent == s.workers[k].sent
  }

  lemma HistoryFrame(s: State, t: State)
    requires History(s) && SameBodies(s, t)
    requires t.done == s.done && t.begun == s.begun && t.written == s.written
    ensures History(t)
  {
    hide Turns, Writes;
  }

  lemma StreamsFrame(s: State, t: State)
    requires Streams(s) && SameHistory(s, t) && SameBodies(s, t)
    ensures Streams(t)
  {}

  lemma LostFrame(s: State, t: State)
    requires WholeDone(s) && OpenIsActive(s) && SameHistory(s, t) && SameBodies(s, t)
    ensures WholeDone(t) && OpenIsActive(t)
  {}

  lemma PullsFrame(s: State, t: State)
    requires Pulls(s) && SameHistory(s, t) && SameBodies(s, t)
    requires t.pulledBytes == s.pulledBytes && t.isStartDone == s.isStartDone
    requires forall k :: 0 <= k < |s.workers| ==>
               t.workers[k].aborting == s.workers[k].aborting || (t.workers[k].aborting && t.workers[k].action.Push?)
    requires forall k :: 0 <= k < |s.workers| ==> (s.workers[k].phase.Setup? ==> t.workers[k].phase.Setup?)
    ensures Pulls(t)
  {
    forall k | 0 <= k < |t.workers|
      ensures PullOk(t, k)
    {
      assert PullOk(s, k);
    }
  }

  // ------------------------------------------------- steps that only move a worker on

  lemma PhaseWorkers(s: State, i: nat, ph: Phase)
    requires WorkersOk(s) && i < |s.workers| && Live(s.workers[i]) && WorkerOk(s.workers[i].(phase := ph))
    ensures WorkersOk(SetPhase(s, i, ph))
  {}

  lemma PhaseOwnership(s: State, i: nat, ph: Phase)
    requires Ownership(s) && i < |s.workers|
    requires s.active == Some(i) ==> ActiveOk(SetPhase(s, i, ph), i)
    ensures Ownership(SetPhase(s, i, ph))
  {}

  lemma PhaseSlot(s: State, i: nat, ph: Phase)
    requires Slot(s) && i < |s.workers|
    requires !s.workers[i].phase.Setting? && !s.workers[i].phase.SetDone? && !ph.Setting? && !ph.SetDone?
    ensures Slot(SetPhase(s, i, ph))
  {}

  /** `i` is the push whose turn it is next. */
  ghost predicate IsQueued(s: State, i: nat) {
    s.queued != 0 && |s.done| > 0 && s.done[|s.done| - 1].w == i
  }

  lemma PhaseQueue(s: State, i: nat, ph: Phase)
    requires Queue(s) && i < |s.workers|
    requires IsQueued(s, i) ==> Runnable(s.workers[i].(phase := ph))
    requires ph == WaitSlot(false) ==> s.settingOs && s.queued == s.workers[i].tid
    ensures Queue(SetPhase(s, i, ph))
  {}

  lemma PhaseKeeps(s: State, i: nat, ph: Phase)
    requires Inv(s) && i < |s.workers| && Live(s.workers[i]) && WorkerOk(s.workers[i].(phase := ph))
    requires s.active == Some(i) ==> ActiveOk(SetPhase(s, i, ph), i)
    requires !s.workers[i].phase.Setting? && !s.workers[i].phase.SetDone? && !ph.Setting? && !ph.SetDone? && !ph.Setup?
    requires IsQueued(s, i) ==> Runnable(s.workers[i].(phase := ph))
    requires ph == WaitSlot(false) ==> s.settingOs && s.queued == s.workers[i].tid
    requires !s.workers[i].phase.Setup?
    ensures Inv(SetPhase(s, i, ph))
  {
    hide WorkersOk, Ownership, Slot, Queue, History, Streams, WholeDone, OpenIsActive, Pulls, ActiveOk, WorkerOk;
    var t := SetPhase(s, i, ph);
    PhaseWorkers(s, i, ph);
    PhaseOwnership(s, i, ph);
    PhaseSlot(s, i, ph);
    PhaseQueue(s, i, ph);
    HistoryFrame(s, t);
    StreamsFrame(s, t);
    LostFrame(s, t);
    PullsFrame(s, t);
  }

  /** A worker that is told to stop or is complete is not the active one. */
  lemma FlaggedNotActive(s: State, i: nat)
    requires Ownership(s) && i < |s.workers| && !Running(s.workers[i])
    ensures s.active != Some(i)
  {}

  /** The queued push still waits, complete and not told to stop. */
  lemma QueuedWaits(s: State, i: nat)
    requires Queue(s) && IsQueued(s, i)
    ensures i < |s.workers| && s.workers[i].complete && Runnable(s.workers[i]) && s.workers[i].action.Push?
    ensures s.workers[i].tid == s.queued
  {}

  lemma ExitKeeps(s: State, i: nat)
    requires Inv(s) && At(s, i, Leaving)
    ensures Inv(SetPhase(s, i, Exited))
  {
    hide Slot, Queue, History, Streams, WholeDone, OpenIsActive, Pulls, Ownership, ActiveOk;
    FlaggedNotActive(s, i);
    if IsQueued(s, i) {
      QueuedWaits(s, i);
    }
    PhaseKeeps(s, i, Exited);
  }

  lemma SleepKeeps(s: State, i: nat)
    requires Inv(s) && s.caller.Idle? && i < |s.workers| && Runnable(s.workers[i])
    requires s.workers[i].action.Push? && Running(s.workers[i])
    ensures Inv(SetPhase(s, i, WaitContinue(false)))
  {
    hide Slot, Queue, History, Streams, WholeDone, OpenIsActive, Pulls;
    if IsQueued(s, i) {
      QueuedWaits(s, i);
    }
    PhaseKeeps(s, i, WaitContinue(false));
  }

  lemma LeaveKeeps(s: State, i: nat)
    requires Inv(s) && i < |s.workers| && Runnable(s.workers[i]) && !Running(s.workers[i])
    requires s.workers[i].action.Pull? || !s.workers[i].complete
    ensures Inv(SetPhase(s, i, Leaving))
  {
    hide Slot, Queue, History, Streams, WholeDone, OpenIsActive, Pulls, Ownership, ActiveOk;
    FlaggedNotActive(s, i);
    if IsQueued(s, i) {
      QueuedWaits(s, i);
    }
    PhaseKeeps(s, i, Leaving);
  }

  lemma SleepForSlotKeeps(s: State, i: nat)
    requires Inv(s) && i < |s.workers| && Runnable(s.workers[i])
    requires s.workers[i].action.Push? && s.workers[i].complete
    requires s.settingOs && s.queued == s.workers[i].tid
    ensures Inv(SetPhase(s, i, WaitSlot(false)))
  {
    hide Slot, Queue, History, Streams, WholeDone, OpenIsActive, Pulls, Ownership, ActiveOk;
    FlaggedNotActive(s, i);
    PhaseKeeps(s, i, WaitSlot(false));
  }

  // ---------------------------------------------------------- taking the slot

  /** The id in the queue is the id of the last completed push and of no other live worker. */
  lemma QueuedIs(s: State, i: nat)
    requires WorkersOk(s) && Queue(s) && i < |s.workers| && Live(s.workers[i]) && s.workers[i].tid == s.queued
    ensures IsQueued(s, i)
  {
    assert s.queued != 0;
    assert Live(s.workers[s.done[|s.done| - 1].w]);
  }

  lemma TakeSlotSlot(s: State, i: nat)
    requires Slot(s) && History(s)
    requires i < |s.workers| && Runnable(s.workers[i]) && !s.workers[i].aborting && !s.settingOs
    ensures Slot(TakeSlot(s, i))
  {}

  lemma TakeSlotQueue(s: State, i: nat)
    requires WorkersOk(s) && Queue(s) && i < |s.workers| && Runnable(s.workers[i]) && !s.workers[i].aborting
    requires !s.settingOs && IsQueued(s, i)
    ensures Queue(TakeSlot(s, i))
  {}

  lemma TurnsGrow(done: seq<Done>, begun: seq<Begin>, i: nat)
    requires Turns(done, begun) && |done| > 0 && done[|done| - 1].w == i
    requires |begun| > 0 ==> begun[|begun| - 1].completions < |done|
    ensures Turns(done, begun + [Begin(i, |done|)])
  {
    forall j | 0 <= j < |begun|
      ensures begun[j].completions < |done|
    {
      assert begun[j].completions <= begun[|begun| - 1].completions;
    }
  }

  lemma TakeSlotHistory(s: State, i: nat)
    requires Queue(s) && History(s) && i < |s.workers| && IsQueued(s, i)
    ensures History(TakeSlot(s, i))
  {
    TurnsGrow(s.done, s.begun, i);
    hide Turns, Queue;
  }

  /** Frames of a step that changes `begun`, `settingOs` and `queued` besides phases. */
  lemma TakeSlotRest(s: State, i: nat)
    requires i < |s.workers| && Live(s.workers[i])
    requires s.workers[i].action.Push? && s.workers[i].complete && !s.workers[i].aborting
    requires WorkersOk(s) && Ownership(s)
    ensures WorkersOk(TakeSlot(s, i)) && Ownership(TakeSlot(s, i))
  {
    FlaggedNotActive(s, i);
    PhaseWorkers(s, i, Setting);
    PhaseOwnership(s, i, Setting);
  }

  lemma TakeSlotStreams(s: State, i: nat)
    requires i < |s.workers| && Streams(s) && WholeDone(s) && OpenIsActive(s)
    ensures Streams(TakeSlot(s, i)) && WholeDone(TakeSlot(s, i)) && OpenIsActive(TakeSlot(s, i))
  {}

  lemma TakeSlotPulls(s: State, i: nat)
    requires i < |s.workers| && Pulls(s) && s.workers[i].action.Push?
    ensures Pulls(TakeSlot(s, i))
  {
    var t := TakeSlot(s, i);
    forall k | 0 <= k < |t.workers|
      ensures PullOk(t, k)
    {
      assert PullOk(s, k);
    }
  }

  lemma TakeSlotKeeps(s: State, i: nat)
    requires Inv(s) && i < |s.workers| && Runnable(s.workers[i])
    requires s.workers[i].action.Push? && s.workers[i].complete
    requires !s.settingOs && s.queued == s.workers[i].tid
    ensures Inv(TakeSlot(s, i))
  {
    assert !s.workers[i].aborting by {
      hide Ownership, Slot, Queue, History, Streams, WholeDone, OpenIsActive, Pulls;
      assert WorkerOk(s.workers[i]);
    }
    hide WorkersOk, Ownership, Slot, Queue, History, Streams, WholeDone, OpenIsActive, Pulls;
    hide ActiveOk, WorkerOk, TakeSlot;
    QueuedIs(s, i);
    TakeSlotSlot(s, i);
    TakeSlotQueue(s, i);
    TakeSlotHistory(s, i);
    TakeSlotRest(s, i);
    TakeSlotStreams(s, i);
    TakeSlotPulls(s, i);
  }

  lemma OvertakenParts(s: State, i: nat)
    requires WorkersOk(s) && Ownership(s)
    requires i < |s.workers| && Runnable(s.workers[i]) && s.workers[i].complete
    ensures WorkersOk(Overtaken(s, i)) && Ownership(Overtaken(s, i))
  {}

  lemma OvertakenSlot(s: State, i: nat)
    requires Slot(s) && Queue(s)
    requires i < |s.workers| && Runnable(s.workers[i]) && !IsQueued(s, i)
    ensures Slot(Overtaken(s, i)) && Queue(Overtaken(s, i))
  {}

  lemma OvertakenKeeps(s: State, i: nat)
    requires Inv(s) && i < |s.workers| && Runnable(s.workers[i])
    requires s.workers[i].action.Push? && s.workers[i].complete && s.queued != s.workers[i].tid
    ensures Inv(Overtaken(s, i))
  {
    hide WorkersOk, Ownership, Slot, Queue, History, Streams, WholeDone, OpenIsActive, Pulls, ActiveOk, WorkerOk;
    if IsQueued(s, i) {
      QueuedWaits(s, i);
    }
    var t := Overtaken(s, i);
    OvertakenParts(s, i);
    OvertakenSlot(s, i);
    HistoryFrame(s, t);
    StreamsFrame(s, t);
    LostFrame(s, t);
    PullsFrame(s, t);
  }

  // ---------------------------------------------- writing and releasing the slot

  lemma WriteSlot(s: State, i: nat)
    requires Slot(s) && At(s, i, Setting) && s.workers[i].buffer.Some?
    ensures Slot(WriteClip(s, i))
  {}

  lemma WriteHistory(s: State, i: nat)
    requires Slot(s) && History(s) && At(s, i, Setting) && s.workers[i].buffer.Some?
    ensures History(WriteClip(s, i))
  {
    hide Turns;
  }

  lemma WriteStreams(s: State, i: nat)
    requires Streams(s) && WholeDone(s) && OpenIsActive(s)
    requires At(s, i, Setting) && s.workers[i].buffer.Some? && s.workers[i].action.Push? && s.workers[i].complete
    ensures Streams(WriteClip(s, i)) && WholeDone(WriteClip(s, i)) && OpenIsActive(WriteClip(s, i))
  {}

  lemma WriteQueue(s: State, i: nat)
    requires Queue(s) && At(s, i, Setting)
    ensures Queue(WriteClip(s, i))
  {}

  lemma WriteRest(s: State, i: nat)
    requires WorkersOk(s) && Ownership(s) && At(s, i, Setting)
    ensures WorkersOk(WriteClip(s, i)) && Ownership(WriteClip(s, i))
  {}

  lemma WritePulls(s: State, i: nat)
    requires Pulls(s) && At(s, i, Setting) && s.workers[i].action.Push?
    ensures Pulls(WriteClip(s, i))
  {
    var t := WriteClip(s, i);
    forall k | 0 <= k < |t.workers|
      ensures PullOk(t, k)
    {
      assert PullOk(s, k);
    }
  }

  lemma WriteKeeps(s: State, i: nat)
    requires Inv(s) && At(s, i, Setting)
    ensures Inv(WriteClip(s, i))
  {
    assert s.workers[i].action.Push? && s.workers[i].buffer.Some? && s.workers[i].complete by {
      hide Ownership, Slot, Queue, History, Streams, WholeDone, OpenIsActive, Pulls;
      assert WorkerOk(s.workers[i]);
    }
    hide WorkersOk, Ownership, Slot, Queue, History, Streams, WholeDone, OpenIsActive, Pulls, WriteClip;
    WriteSlot(s, i);
    WriteHistory(s, i);
    WriteStreams(s, i);
    WriteQueue(s, i);
    WriteRest(s, i);
    WritePulls(s, i);
  }

  /** Releasing the slot moves the setter on and wakes whoever waits for the slot. */
  ghost predicate Released(s: State, t: State, i: nat) {
    && At(s, i, SetDone) && !t.settingOs && t.queued == s.queued
    && |t.workers| == |s.workers|
    && forall k :: 0 <= k < |s.workers| ==>
         t.workers[k] == if k == i then s.workers[k].(phase := Leaving) else WakeForSlot(s.workers[k])
  }

  lemma ReleaseSlotParts(s: State, t: State, i: nat)
    requires Slot(s) && Released(s, t, i) && t.begun == s.begun && t.written == s.written && t.done == s.done
    requires Queue(s)
    ensures Slot(t) && Queue(t)
  {}

  lemma ReleaseWorkers(s: State, t: State, i: nat)
    requires WorkersOk(s) && Released(s, t, i) && t.chunkSize == s.chunkSize
    ensures WorkersOk(t)
  {}

  lemma ReleaseOwnership(s: State, i: nat)
    requires Ownership(s) && At(s, i, SetDone)
    ensures Ownership(ReleaseSlot(s, i))
  {}

  lemma ReleaseKeeps(s: State, i: nat)
    requires Inv(s) && At(s, i, SetDone)
    ensures Inv(ReleaseSlot(s, i))
  {
    hide WorkersOk, Ownership, Slot, Queue, History, Streams, WholeDone, OpenIsActive, Pulls, ActiveOk, WorkerOk;
    var t := ReleaseSlot(s, i);
    ReleaseSlotParts(s, t, i);
    ReleaseWorkers(s, t, i);
    ReleaseOwnership(s, i);
    HistoryFrame(s, t);
    StreamsFrame(s, t);
    LostFrame(s, t);
    PullsFrame(s, t);
  }

  // ------------------------------------------------------- a new thread sets itself up

  lemma PublishWorkers(s: State, i: nat)
    requires WorkersOk(s) && At(s, i, Setup)
    ensures WorkersOk(PublishWorker(s, i))
  {}

  lemma PublishOwnership(s: State, i: nat)
    requires WorkersOk(s) && Ownership(s) && At(s, i, Setup)
    ensures Ownership(PublishWorker(s, i))
  {
    assert WorkerOk(s.workers[i]);
  }

  lemma SlotFrame(s: State, t: State)
    requires Slot(s) && t.workers == s.workers && t.settingOs == s.settingOs
    requires t.begun == s.begun && t.written == s.written
    ensures Slot(t)
  {}

  lemma QueueFrame(s: State, t: State)
    requires Queue(s) && t.workers == s.workers && t.settingOs == s.settingOs && t.queued == s.queued
    requires t.done == s.done && t.begun == s.begun
    ensures Queue(t)
  {}

  lemma PublishSlot(s: State, i: nat)
    requires Slot(s) && Queue(s) && At(s, i, Setup)
    ensures Slot(PublishWorker(s, i)) && Queue(PublishWorker(s, i))
  {
    var ph := if s.workers[i].action.Push? then Ready else Fetching;
    if IsQueued(s, i) {
      QueuedWaits(s, i);
    }
    PhaseSlot(s, i, ph);
    PhaseQueue(s, i, ph);
    hide Slot, Queue;
    SlotFrame(SetPhase(s, i, ph), PublishWorker(s, i));
    QueueFrame(SetPhase(s, i, ph), PublishWorker(s, i));
  }

  lemma PublishPulls(s: State, i: nat)
    requires WorkersOk(s) && Pulls(s) && Ownership(s) && At(s, i, Setup)
    ensures Pulls(PublishWorker(s, i))
  {
    var t := PublishWorker(s, i);
    forall k | 0 <= k < |t.workers|
      ensures PullOk(t, k)
    {
      assert PullOk(s, k);
      assert WorkerOk(s.workers[i]);
      assert k != i ==> !Running(s.workers[k]);
    }
  }

  lemma PublishFrame(s: State, i: nat)
    requires At(s, i, Setup)
    ensures SameHistory(s, PublishWorker(s, i)) && SameBodies(s, PublishWorker(s, i))
  {
    if s.workers[i].action.Push? {
      assert SameBodies(s, PublishWorker(s, i));
    }
  }

  lemma PublishKeeps(s: State, i: nat)
    requires Inv(s) && At(s, i, Setup)
    ensures Inv(PublishWorker(s, i))
  {
    PublishFrame(s, i);
    hide WorkersOk, Ownership, Slot, Queue, History, Streams, WholeDone, OpenIsActive, Pulls, PublishWorker, SameBodies;
    var t := PublishWorker(s, i);
    PublishWorkers(s, i);
    PublishOwnership(s, i);
    PublishSlot(s, i);
    PublishPulls(s, i);
    HistoryFrame(s, t);
    StreamsFrame(s, t);
    LostFrame(s, t);
  }

  // --------------------------------------------------- the pull thread's own steps

  lemma FetchWorkers(s: State, i: nat, clip: Option<Clip>)
    requires WorkersOk(s) && Ownership(s) && At(s, i, Fetching)
    ensures WorkersOk(FetchClip(s, i, clip)) && Ownership(FetchClip(s, i, clip))
  {
    assert WorkerOk(s.workers[i]);
  }

  lemma FetchSlot(s: State, i: nat, clip: Option<Clip>)
    requires Slot(s) && Queue(s) && At(s, i, Fetching)
    ensures Slot(FetchClip(s, i, clip)) && Queue(FetchClip(s, i, clip))
  {}

  lemma FetchHistory(s: State, i: nat, clip: Option<Clip>)
    requires History(s) && Streams(s) && At(s, i, Fetching) && s.workers[i].action.Pull?
    ensures History(FetchClip(s, i, clip)) && Streams(FetchClip(s, i, clip))
  {
    hide Turns, Writes;
  }

  lemma FetchLost(s: State, i: nat, clip: Option<Clip>)
    requires WholeDone(s) && OpenIsActive(s) && i < |s.workers|
    ensures WholeDone(FetchClip(s, i, clip)) && OpenIsActive(FetchClip(s, i, clip))
  {}

  lemma FetchPulls(s: State, i: nat, clip: Option<Clip>)
    requires Pulls(s) && At(s, i, Fetching) && s.workers[i].action.Pull? && s.workers[i].buffer.None?
    ensures Pulls(FetchClip(s, i, clip))
  {
    var t := FetchClip(s, i, clip);
    forall k | 0 <= k < |t.workers|
      ensures PullOk(t, k)
    {
      assert PullOk(s, k);
      if k == i && clip.Some? {
        assert [] + Whole(s, clip.value) == Whole(s, clip.value);
      }
    }
  }

  lemma FetchKeeps(s: State, i: nat, clip: Option<Clip>)
    requires Inv(s) && At(s, i, Fetching)
    ensures Inv(FetchClip(s, i, clip))
  {
    assert s.workers[i].action.Pull? && s.workers[i].buffer.None? by {
      hide Ownership, Slot, Queue, History, Streams, WholeDone, OpenIsActive, Pulls;
      assert WorkerOk(s.workers[i]);
    }
    hide WorkersOk, Ownership, Slot, Queue, History, Streams, WholeDone, OpenIsActive, Pulls, FetchClip;
    FetchWorkers(s, i, clip);
    FetchSlot(s, i, clip);
    FetchHistory(s, i, clip);
    FetchLost(s, i, clip);
    FetchPulls(s, i, clip);
  }

  lemma OfferOwnership(s: State, i: nat)
    requires Ownership(s) && WorkersOk(s) && s.caller.Idle? && i < |s.workers| && Runnable(s.workers[i])
    requires s.workers[i].action.Pull? && Running(s.workers[i])
    ensures Ownership(OfferBuffer(s, i)) && WorkersOk(OfferBuffer(s, i))
  {}

  lemma OfferKeeps(s: State, i: nat)
    requires Inv(s) && s.caller.Idle? && i < |s.workers| && Runnable(s.workers[i])
    requires s.workers[i].action.Pull? && Running(s.workers[i])
    ensures Inv(OfferBuffer(s, i))
  {
    hide WorkersOk, Ownership, Slot, Queue, History, Streams, WholeDone, OpenIsActive, Pulls, ActiveOk, WorkerOk;
    var t := OfferBuffer(s, i);
    if IsQueued(s, i) {
      QueuedWaits(s, i);
    }
    OfferOwnership(s, i);
    PhaseSlot(s, i, WaitContinue(false));
    PhaseQueue(s, i, WaitContinue(false));
    SlotFrame(SetPhase(s, i, WaitContinue(false)), t);
    QueueFrame(SetPhase(s, i, WaitContinue(false)), t);
    HistoryFrame(s, t);
    StreamsFrame(s, t);
    LostFrame(s, t);
    PullsFrame(s, t);
  }

  // ------------------------------------------------ aborting the transfer in progress

  function Aborted(s: State, k: nat): Worker
    requires k < |s.workers|
  {
    Wake(if s.active == Some(k) then s.workers[k].(aborting := true) else s.workers[k])
  }

  /** What Interrupt does in a state with a consistent owner: only the active worker is told to stop. */
  ghost predicate Interrupted(s: State, t: State) {
    && |t.workers| == |s.workers| && (forall k :: 0 <= k < |s.workers| ==> t.workers[k] == Aborted(s, k))
    && t.active.None? && NothingPublished(t) && t.pulledBytes == 0
    && t.caller == s.caller && t.setupPosts == s.setupPosts && t.chunkSize == s.chunkSize
    && t.settingOs == s.settingOs && t.queued == s.queued
    && t.done == s.done && t.begun == s.begun && t.written == s.written
  }

  lemma InterruptEffect(s: State, a: Arrival)
    requires Ownership(s) && s.caller.Idle?
    ensures Interrupted(s, Interrupt(s, a)) && Interrupt(s, a).arrivals == s.arrivals + [a]
  {}

  lemma InterruptWorkers(s: State, t: State)
    requires WorkersOk(s) && Ownership(s) && s.caller.Idle? && Interrupted(s, t)
    ensures WorkersOk(t)
  {
    forall k | 0 <= k < |t.workers|
      ensures WorkerOk(t.workers[k])
    {
      assert WorkerOk(s.workers[k]);
    }
  }

  lemma InterruptOwnership(s: State, t: State)
    requires Ownership(s) && s.caller.Idle? && Interrupted(s, t)
    ensures Ownership(t)
  {}

  lemma InterruptSlot(s: State, t: State)
    requires Slot(s) && Queue(s) && Interrupted(s, t)
    ensures Slot(t) && Queue(t)
  {}

  lemma InterruptPulls(s: State, t: State)
    requires Pulls(s) && Ownership(s) && Interrupted(s, t)
    ensures Pulls(t)
  {
    forall k | 0 <= k < |t.workers|
      ensures PullOk(t, k)
    {
      assert PullOk(s, k);
    }
  }

  /** A later arrival leaves the streams before it alone. */
  lemma StreamStays(a: seq<Arrival>, x: Arrival, from: int, to: int)
    requires to < |a|
    ensures IsStream(a + [x], from, to) == IsStream(a, from, to)
    ensures 0 <= from < to ==> (a + [x])[from..to + 1] == a[from..to + 1]
  {
    if 0 <= from < to {
      assert (a + [x])[from..to] == a[from..to];
    }
  }

  lemma InterruptStreams(s: State, t: State, a: Arrival)
    requires Streams(s) && Interrupted(s, t) && t.arrivals == s.arrivals + [a]
    ensures Streams(t)
  {
    forall j | 0 <= j < |t.done|
      ensures IsStream(t.arrivals, t.done[j].from, t.done[j].to)
      ensures t.done[j].w < |t.workers| && t.workers[t.done[j].w].complete
      ensures t.workers[t.done[j].w].buffer == Some(StreamClip(t.arrivals[t.done[j].from..t.done[j].to + 1]))
    {
      StreamStays(s.arrivals, a, s.done[j].from, s.done[j].to);
    }
  }

  lemma InterruptWhole(s: State, t: State, a: Arrival)
    requires WholeDone(s) && t.done == s.done && t.arrivals == s.arrivals + [a]
    requires !(a.Got? && a.chunk.pos.Final?)
    ensures WholeDone(t)
  {
    forall from, to | IsStream(t.arrivals, from, to)
      ensures IsDone(t.done, from, to)
    {
      StreamStays(s.arrivals, a, from, to);
    }
  }

  lemma NoOpenStream(a: seq<Arrival>, x: Arrival)
    requires !(x.Got? && x.chunk.pos.Middle?)
    ensures forall from :: OpenFrom(a + [x], from) ==> from == |a| && x.Got? && x.chunk.pos.Start?
  {
    forall from | OpenFrom(a + [x], from)
      ensures from == |a| && x.Got? && x.chunk.pos.Start?
    {
      var b := (a + [x])[from..];
      assert b[|b| - 1] == x;
    }
  }

  lemma InterruptHistory(s: State, t: State)
    requires History(s) && Interrupted(s, t)
    ensures History(t)
  {
    HistoryFrame(s, t);
  }

  /** Everything but OpenIsActive, which a START must wait for. */
  lemma InterruptKeeps(s: State, a: Arrival)
    requires Inv(s) && s.caller.Idle? && !(a.Got? && !a.chunk.pos.Start?)
    ensures var t := Interrupt(s, a);
            && WorkersOk(t) && Ownership(t) && Slot(t) && Queue(t) && History(t)
            && Streams(t) && WholeDone(t) && Pulls(t)
  {
    hide WorkersOk, Ownership, Slot, Queue, History, Streams, WholeDone, OpenIsActive, Pulls, Interrupt, Interrupted;
    var t := Interrupt(s, a);
    InterruptEffect(s, a);
    InterruptWorkers(s, t);
    InterruptOwnership(s, t);
    InterruptSlot(s, t);
    InterruptHistory(s, t);
    InterruptStreams(s, t, a);
    InterruptWhole(s, t, a);
    InterruptPulls(s, t);
  }

  /** An arrival that starts nothing leaves no stream open. */
  lemma InterruptAloneKeeps(s: State, a: Arrival)
    requires Inv(s) && s.caller.Idle? && !a.Got?
    ensures Inv(Interrupt(s, a))
  {
    hide WorkersOk, Ownership, Slot, Queue, History, Streams, WholeDone, Pulls, Interrupt;
    InterruptKeeps(s, a);
    InterruptEffect(s, a);
    NoOpenStream(s.arrivals, a);
  }

  // ------------------------------------------------------------ starting a transfer

  lemma AddWorkerWorkers(s: State, a: Action, tid: nat, waiting: Caller)
    requires WorkersOk(s) && FreshTid(s, tid)
    ensures WorkersOk(AddWorker(s, a, tid, waiting))
  {}

  lemma AddWorkerOwnership(s: State, a: Action, tid: nat, waiting: Caller)
    requires Ownership(s) && s.active.None? && s.initialized
    requires if a.Push? then waiting.StartingPush? else waiting.StartingPull?
    ensures Ownership(AddWorker(s, a, tid, waiting))
  {}

  lemma AddWorkerSlot(s: State, a: Action, tid: nat, waiting: Caller)
    requires Slot(s) && Queue(s)
    ensures Slot(AddWorker(s, a, tid, waiting)) && Queue(AddWorker(s, a, tid, waiting))
  {}

  lemma AddWorkerHistory(s: State, a: Action, tid: nat, waiting: Caller)
    requires History(s)
    ensures History(AddWorker(s, a, tid, waiting))
  {
    hide Turns, Writes;
  }

  lemma AddWorkerPulls(s: State, a: Action, tid: nat, waiting: Caller)
    requires Pulls(s) && s.pulledBytes == 0
    ensures Pulls(AddWorker(s, a, tid, waiting))
  {
    var t := AddWorker(s, a, tid, waiting);
    forall k | 0 <= k < |t.workers|
      ensures PullOk(t, k)
    {
      if k < |s.workers| {
        assert PullOk(s, k);
      }
    }
  }

  /** The last arrival is what the new transfer is for. */
  ghost predicate StartedBy(s: State, a: Action, waiting: Caller) {
    && |s.arrivals| > 0
    && var x := s.arrivals[|s.arrivals| - 1];
       if a.Push? then waiting.StartingPush? && x == Got(waiting.chunk) && waiting.chunk.pos.Start?
       else waiting.StartingPull? && x == LocalUpdate
  }

  lemma AddWorkerStreams(s: State, a: Action, tid: nat, waiting: Caller)
    requires Streams(s) && StartedBy(s, a, waiting)
    ensures Streams(AddWorker(s, a, tid, waiting))
  {}

  lemma AddWorkerLost(s: State, a: Action, tid: nat, waiting: Caller)
    requires WholeDone(s) && StartedBy(s, a, waiting)
    ensures WholeDone(AddWorker(s, a, tid, waiting)) && OpenIsActive(AddWorker(s, a, tid, waiting))
  {
    var n := |s.arrivals| - 1;
    NoOpenStream(s.arrivals[..n], s.arrivals[n]);
    assert s.arrivals[..n] + [s.arrivals[n]] == s.arrivals;
  }

  lemma FreshAfterInterrupt(s: State, a: Arrival, tid: nat)
    requires Ownership(s) && s.caller.Idle? && FreshTid(s, tid)
    ensures FreshTid(Interrupt(s, a), tid)
  {
    InterruptEffect(s, a);
  }

  lemma InterruptIdle(s: State, a: Arrival)
    ensures var t := Interrupt(s, a);
            && t.caller == s.caller && t.initialized == s.initialized && t.active.None?
            && t.pulledBytes == 0 && t.arrivals == s.arrivals + [a]
  {}

  lemma StartKeeps(s: State, x: Arrival, a: Action, tid: nat, waiting: Caller)
    requires Inv(s) && s.caller.Idle? && s.initialized && FreshTid(s, tid)
    requires StartedBy(s.(arrivals := s.arrivals + [x]), a, waiting)
    ensures Inv(AddWorker(Interrupt(s, x), a, tid, waiting))
  {
    hide WorkersOk, Ownership, Slot, Queue, History, Streams, WholeDone, OpenIsActive, Pulls;
    hide Interrupt, AddWorker, FreshTid;
    var t := Interrupt(s, x);
    InterruptKeeps(s, x);
    InterruptIdle(s, x);
    FreshAfterInterrupt(s, x, tid);
    AddWorkerWorkers(t, a, tid, waiting);
    AddWorkerOwnership(t, a, tid, waiting);
    AddWorkerSlot(t, a, tid, waiting);
    AddWorkerHistory(t, a, tid, waiting);
    AddWorkerPulls(t, a, tid, waiting);
    AddWorkerStreams(t, a, tid, waiting);
    AddWorkerLost(t, a, tid, waiting);
  }

  // ---------------------------------------------------------------- pushing a chunk

  /** The state in which a chunk has arrived but nothing has been done about it. */
  function Arrived(s: State, x: Arrival): State {
    s.(arrivals := s.arrivals + [x])
  }

  ghost predicate ActivePush(s: State) {
    s.active.Some? && s.active.value < |s.workers| && s.workers[s.active.value].action.Push?
  }

  lemma ActivePushIsActive(s: State)
    requires WorkersOk(s) && Ownership(s) && s.caller.Idle? && s.initialized
    ensures IsActive(s, Push) == ActivePush(s)
    ensures ActivePush(s) ==> s.bufferPtr == s.active
  {
    if s.active.Some? {
      assert WorkerOk(s.workers[s.active.value]);
    }
  }

  lemma ArrivedDoneStreams(s: State, x: Arrival)
    requires DoneStreams(s)
    ensures DoneStreams(Arrived(s, x))
  {
    forall j | 0 <= j < |s.done|
      ensures IsStream(s.arrivals + [x], s.done[j].from, s.done[j].to)
      ensures (s.arrivals + [x])[s.done[j].from..s.done[j].to + 1] == s.arrivals[s.done[j].from..s.done[j].to + 1]
    {
      StreamStays(s.arrivals, x, s.done[j].from, s.done[j].to);
    }
  }

  /** The arrivals open at the end of `a + [x]`, and the stream that ends there, were open at the end of `a`. */
  lemma OpenBefore(a: seq<Arrival>, x: Arrival, from: int)
    requires 0 <= from < |a|
    ensures OpenFrom(a + [x], from) <==> OpenFrom(a, from) && x.Got? && x.chunk.pos.Middle?
    ensures IsStream(a + [x], from, |a|) <==> OpenFrom(a, from) && x.Got? && x.chunk.pos.Final?
  {
    var b := (a + [x])[from..];
    assert b == a[from..] + [x];
    assert (a + [x])[from..|a|] == a[from..];
    if OpenFrom(a + [x], from) {
      forall k | 0 < k < |a[from..]|
        ensures a[from..][k].Got? && a[from..][k].chunk.pos.Middle?
      {
        assert b[k] == a[from..][k];
      }
      assert b[|b| - 1] == x;
    }
  }

  /** A chunk that finds no active push is ignored: no stream was open. */
  lemma IgnoredLost(s: State, c: Chunk)
    requires WholeDone(s) && OpenIsActive(s) && !ActivePush(s) && !c.pos.Start?
    ensures WholeDone(Arrived(s, Got(c))) && OpenIsActive(Arrived(s, Got(c)))
  {
    var b := s.arrivals + [Got(c)];
    forall from, to | IsStream(b, from, to)
      ensures IsDone(s.done, from, to)
    {
      if to == |s.arrivals| {
        OpenBefore(s.arrivals, Got(c), from);
      } else {
        StreamStays(s.arrivals, Got(c), from, to);
      }
    }
    forall from | OpenFrom(b, from)
      ensures false
    {
      if from < |s.arrivals| {
        OpenBefore(s.arrivals, Got(c), from);
      }
    }
  }

  lemma ArrivedRest(s: State, x: Arrival)
    requires WorkersOk(s) && Ownership(s) && Slot(s) && Queue(s) && History(s) && Pulls(s)
    ensures var t := Arrived(s, x);
            WorkersOk(t) && Ownership(t) && Slot(t) && Queue(t) && History(t) && Pulls(t)
  {
    var t := Arrived(s, x);
    hide Turns, Writes, WorkerOk, ActiveOk;
    assert Ownership(t) by { ArrivedOwnership(s, x); }
    SlotFrame(s, t);
    QueueFrame(s, t);
    HistoryFrame(s, t);
    ArrivedPulls(s, x);
  }

  lemma ArrivedOwnership(s: State, x: Arrival)
    requires Ownership(s)
    ensures Ownership(Arrived(s, x))
  {}

  lemma ArrivedPulls(s: State, x: Arrival)
    requires Pulls(s)
    ensures Pulls(Arrived(s, x))
  {
    forall k | 0 <= k < |s.workers|
      ensures PullOk(Arrived(s, x), k)
    {
      assert PullOk(s, k);
    }
  }

  lemma IgnoredKeeps(s: State, c: Chunk)
    requires Inv(s) && !ActivePush(s) && !c.pos.Start?
    ensures Inv(Arrived(s, Got(c)))
  {
    hide WorkersOk, Ownership, Slot, Queue, History, DoneStreams, WholeDone, OpenIsActive, Pulls;
    ArrivedRest(s, Got(c));
    ArrivedDoneStreams(s, Got(c));
    IgnoredLost(s, c);
  }

  /** The buffer of worker `w` replaced. */
  function SetBuffer(s: State, w: nat, b: Clip): State
    requires w < |s.workers|
  {
    s.(workers := s.workers[w := s.workers[w].(buffer := Some(b))])
  }

  lemma SetBufferWorkers(s: State, b: Clip)
    requires WorkersOk(s) && Ownership(s) && ActivePush(s)
    ensures WorkersOk(SetBuffer(s, s.active.value, b)) && Ownership(SetBuffer(s, s.active.value, b))
  {
    assert WorkerOk(s.workers[s.active.value]);
  }

  lemma SetBufferSlot(s: State, w: nat, b: Clip)
    requires Slot(s) && Queue(s) && w < |s.workers|
    ensures Slot(SetBuffer(s, w, b)) && Queue(SetBuffer(s, w, b))
  {}

  lemma SetBufferHistory(s: State, w: nat, b: Clip)
    requires History(s) && w < |s.workers|
    ensures History(SetBuffer(s, w, b))
  {
    hide Turns, Writes;
  }

  lemma SetBufferDone(s: State, w: nat, b: Clip)
    requires DoneStreams(s) && w < |s.workers| && !s.workers[w].complete
    ensures DoneStreams(SetBuffer(s, w, b))
  {}

  lemma SetBufferPulls(s: State, w: nat, b: Clip)
    requires Pulls(s) && w < |s.workers| && s.workers[w].action.Push?
    ensures Pulls(SetBuffer(s, w, b))
  {
    var t := SetBuffer(s, w, b);
    forall k | 0 <= k < |t.workers|
      ensures PullOk(t, k)
    {
      assert PullOk(s, k);
    }
  }

  /** Everything a change of the active push's buffer keeps, whatever the new contents. */
  lemma SetBufferKeeps(s: State, b: Clip)
    requires WorkersOk(s) && Ownership(s) && Slot(s) && Queue(s) && History(s) && DoneStreams(s) && Pulls(s)
    requires ActivePush(s) && !s.workers[s.active.value].complete
    ensures var t := SetBuffer(s, s.active.value, b);
            && WorkersOk(t) && Ownership(t) && Slot(t) && Queue(t) && History(t) && DoneStreams(t) && Pulls(t)
  {
    hide WorkersOk, Ownership, Slot, Queue, History, DoneStreams, Pulls, SetBuffer;
    var w := s.active.value;
    SetBufferWorkers(s, b);
    SetBufferSlot(s, w, b);
    SetBufferHistory(s, w, b);
    SetBufferDone(s, w, b);
    SetBufferPulls(s, w, b);
  }

  /** One more chunk on the stream is one more chunk on the clipboard. */
  lemma StreamGrows(a: seq<Arrival>, c: Chunk, from: int)
    requires OpenFrom(a, from) && !c.pos.Start?
    ensures StreamClip((a + [Got(c)])[from..]) == Pushed(StreamClip(a[from..]), c)
  {
    var b := (a + [Got(c)])[from..];
    assert b == a[from..] + [Got(c)];
    assert b[..|b| - 1] == a[from..];
  }

  /** The state between appending a chunk to the active push and, for FINAL, completing it. */
  function Extended(s: State, c: Chunk): State
    requires ActivePush(s) && s.workers[s.active.value].buffer.Some?
  {
    SetBuffer(Arrived(s, Got(c)), s.active.value, Pushed(s.workers[s.active.value].buffer.value, c))
  }

  lemma ActiveRuns(s: State)
    requires WorkersOk(s) && Ownership(s) && ActivePush(s)
    ensures var w := s.workers[s.active.value]; !w.complete && !w.aborting && w.buffer.Some? && Live(w)
    ensures s.caller.Idle? ==> s.completePtr == s.active && s.action == Some(Push)
  {
    assert WorkerOk(s.workers[s.active.value]);
  }

  lemma ExtendedKeeps(s: State, c: Chunk)
    requires Inv(s) && s.caller.Idle? && ActivePush(s) && s.workers[s.active.value].buffer.Some?
    ensures var t := Extended(s, c);
            && WorkersOk(t) && Ownership(t) && Slot(t) && Queue(t) && History(t) && DoneStreams(t) && Pulls(t)
  {
    hide WorkersOk, Ownership, Slot, Queue, History, DoneStreams, WholeDone, OpenIsActive, Pulls, SetBuffer;
    ActiveRuns(s);
    ArrivedRest(s, Got(c));
    ArrivedDoneStreams(s, Got(c));
    SetBufferKeeps(Arrived(s, Got(c)), Pushed(s.workers[s.active.value].buffer.value, c));
  }

  lemma MiddleStreams(s: State, c: Chunk)
    requires ActiveStream(s) && s.caller.Idle? && ActivePush(s) && c.pos.Middle?
    requires s.workers[s.active.value].buffer.Some?
    ensures ActiveStream(Extended(s, c))
  {
    var from := s.workers[s.active.value].from;
    OpenBefore(s.arrivals, Got(c), from);
    StreamGrows(s.arrivals, c, from);
  }

  lemma MiddleLost(s: State, c: Chunk)
    requires WholeDone(s) && OpenIsActive(s) && ActivePush(s) && c.pos.Middle?
    requires s.workers[s.active.value].buffer.Some?
    ensures WholeDone(Extended(s, c)) && OpenIsActive(Extended(s, c))
  {
    var t := Extended(s, c);
    InterruptWhole(s, t, Got(c));
    forall from | OpenFrom(t.arrivals, from)
      ensures s.workers[s.active.value].from == from
    {
      if from < |s.arrivals| {
        OpenBefore(s.arrivals, Got(c), from);
      }
    }
  }

  lemma MiddleKeeps(s: State, c: Chunk)
    requires Inv(s) && s.caller.Idle? && ActivePush(s) && s.workers[s.active.value].buffer.Some? && c.pos.Middle?
    ensures Inv(Extended(s, c))
  {
    hide WorkersOk, Ownership, Slot, Queue, History, DoneStreams, ActiveStream, WholeDone, OpenIsActive, Pulls;
    hide Extended;
    ExtendedKeeps(s, c);
    MiddleStreams(s, c);
    MiddleLost(s, c);
  }

  // -------------------------------------------------------------- completing a push

  function Finished(s: State, k: nat): Worker
    requires k < |s.workers|
  {
    Wake(WakeForSlot(if s.active == Some(k) then s.workers[k].(complete := true) else s.workers[k]))
  }

  /** What completing the active push does: it becomes the queued setter and nobody is active. */
  ghost predicate CompletedPush(s: State, t: State) {
    && ActivePush(s)
    && |t.workers| == |s.workers| && (forall k :: 0 <= k < |s.workers| ==> t.workers[k] == Finished(s, k))
    && t.queued == s.workers[s.active.value].tid
    && t.done == s.done + [Done(s.active.value, s.workers[s.active.value].from, |s.arrivals| - 1)]
    && t.active.None? && NothingPublished(t)
    && t.caller == s.caller && t.setupPosts == s.setupPosts && t.chunkSize == s.chunkSize
    && t.settingOs == s.settingOs && t.begun == s.begun && t.written == s.written && t.arrivals == s.arrivals
  }

  lemma CompleteEffect(s: State)
    requires ActivePush(s) && s.completePtr == s.active && s.action == Some(Push)
    ensures CompletedPush(s, FinishActive(s, true))
  {
    var m := MarkComplete(s);
    var w := s.active.value;
    assert forall k :: 0 <= k < |s.workers| ==>
      m.workers[k] == WakeForSlot(if k == w then s.workers[k].(complete := true) else s.workers[k]);
  }

  lemma CompleteWorkers(s: State, t: State)
    requires WorkersOk(s) && Ownership(s) && s.caller.Idle? && CompletedPush(s, t)
    ensures WorkersOk(t)
  {
    forall k | 0 <= k < |t.workers|
      ensures WorkerOk(t.workers[k])
    {
      assert WorkerOk(s.workers[k]);
    }
  }

  lemma CompleteOwnership(s: State, t: State)
    requires Ownership(s) && s.caller.Idle? && CompletedPush(s, t)
    ensures Ownership(t)
  {}

  lemma CompleteSlot(s: State, t: State)
    requires Slot(s) && CompletedPush(s, t)
    ensures Slot(t)
  {}

  lemma CompleteQueue(s: State, t: State)
    requires WorkersOk(s) && Ownership(s) && s.caller.Idle? && Turns(s.done, s.begun) && CompletedPush(s, t)
    ensures Queue(t)
  {
    assert WorkerOk(s.workers[s.active.value]);
  }

  lemma CompleteHistory(s: State, t: State)
    requires Ownership(s) && History(s) && CompletedPush(s, t)
    ensures History(t)
  {
    hide Writes;
    assert Turns(t.done, t.begun);
    assert Completions(t) by {
      hide Turns, Writes;
    }
  }

  lemma CompleteDone(s: State, t: State)
    requires DoneStreams(s) && CompletedPush(s, t)
    requires var w := s.workers[s.active.value];
             && IsStream(s.arrivals, w.from, |s.arrivals| - 1)
             && w.buffer == Some(StreamClip(s.arrivals[w.from..]))
    ensures DoneStreams(t)
  {
    var w := s.active.value;
    var from := s.workers[w].from;
    assert s.arrivals[from..|s.arrivals| - 1 + 1] == s.arrivals[from..];
    assert t.workers[w].complete;
    FinishedKeepsBuffers(s, t);
    hide StreamClip, IsStream, Finished, NothingPublished;
    assert t.done[|s.done|] == Done(w, from, |s.arrivals| - 1);
    assert forall j :: 0 <= j < |s.done| ==> t.done[j] == s.done[j];
  }

  lemma FinishedKeepsBuffers(s: State, t: State)
    requires CompletedPush(s, t)
    ensures forall k :: 0 <= k < |s.workers| ==>
      && t.workers[k].buffer == s.workers[k].buffer && t.workers[k].action == s.workers[k].action
      && (s.workers[k].complete ==> t.workers[k].complete)
  {}

  lemma CompletePulls(s: State, t: State)
    requires Pulls(s) && Ownership(s) && CompletedPush(s, t)
    ensures Pulls(t)
  {
    forall k | 0 <= k < |t.workers|
      ensures PullOk(t, k)
    {
      assert PullOk(s, k);
      assert !Running(t.workers[k]);
    }
  }

  lemma FinalStream(s: State, c: Chunk)
    requires ActiveStream(s) && s.caller.Idle? && ActivePush(s) && c.pos.Final?
    requires s.workers[s.active.value].buffer.Some?
    ensures var t := Extended(s, c);
            var w := t.workers[s.active.value];
            && IsStream(t.arrivals, w.from, |t.arrivals| - 1)
            && w.buffer == Some(StreamClip(t.arrivals[w.from..]))
  {
    var from := s.workers[s.active.value].from;
    OpenBefore(s.arrivals, Got(c), from);
    StreamGrows(s.arrivals, c, from);
  }

  lemma FinalWhole(s: State, t: State, c: Chunk)
    requires WholeDone(s) && OpenIsActive(s) && ActivePush(s) && c.pos.Final?
    requires t.arrivals == s.arrivals + [Got(c)]
    requires t.done == s.done + [Done(s.active.value, s.workers[s.active.value].from, |s.arrivals|)]
    ensures WholeDone(t) && OpenIsActive(t)
  {
    forall from, to | IsStream(t.arrivals, from, to)
      ensures IsDone(t.done, from, to)
    {
      if to == |s.arrivals| {
        OpenBefore(s.arrivals, Got(c), from);
        assert t.done[|s.done|].from == from;
      } else {
        StreamStays(s.arrivals, Got(c), from, to);
        var j :| 0 <= j < |s.done| && s.done[j].from == from && s.done[j].to == to;
        assert t.done[j] == s.done[j];
      }
    }
    NoOpenStream(s.arrivals, Got(c));
  }

  lemma CompleteKeeps(s: State, c: Chunk)
    requires Inv(s) && s.caller.Idle? && ActivePush(s) && s.workers[s.active.value].buffer.Some? && c.pos.Final?
    ensures Inv(FinishActive(Extended(s, c), true))
  {
    hide WorkersOk, Ownership, Slot, Queue, DoneStreams, ActiveStream, WholeDone, OpenIsActive, Pulls,
      Completions, Turns, Writes, FinishActive;
    var m := Extended(s, c);
    ExtendedKeeps(s, c);
    FinalStream(s, c);
    ActiveRuns(m);
    CompleteEffect(m);
    var t := FinishActive(m, true);
    CompleteWorkers(m, t);
    CompleteOwnership(m, t);
    CompleteSlot(m, t);
    CompleteQueue(m, t);
    CompleteHistory(m, t);
    CompleteDone(m, t);
    CompletePulls(m, t);
    FinalWhole(s, t, c);
    NotPushing(t);
  }

  lemma NotPushing(t: State)
    requires t.active.None?
    ensures ActiveStream(t)
  {}

  // ---------------------------------------------------------------- pulling a chunk

  /** One chunk cut from worker `w`, before FINAL completes the pull. */
  function Sent(s: State, w: nat, c: Chunk): State
    requires w < |s.workers|
  {
    s.(workers := s.workers[w := s.workers[w].(sent := s.workers[w].sent + [c])],
       isStartDone := true, pulledBytes := s.pulledBytes + |c.data|)
  }

  lemma ActivePullIsActive(s: State)
    requires WorkersOk(s) && Ownership(s) && s.caller.Idle? && IsActive(s, Pull)
    ensures Points(s, s.active) && s.bufferPtr == s.active && s.completePtr == s.active
    ensures var w := s.workers[s.active.value];
            w.action.Pull? && Running(w) && w.phase.WaitContinue? && w.buffer.Some?
  {}

  lemma SentWorkers(s: State, w: nat, c: Chunk)
    requires WorkersOk(s) && Ownership(s) && w < |s.workers| && s.workers[w].phase.WaitContinue?
    ensures WorkersOk(Sent(s, w, c)) && Ownership(Sent(s, w, c))
  {
    assert WorkerOk(s.workers[w]);
  }

  lemma SentSlot(s: State, w: nat, c: Chunk)
    requires Slot(s) && Queue(s) && w < |s.workers|
    ensures Slot(Sent(s, w, c)) && Queue(Sent(s, w, c))
  {}

  lemma SentHistory(s: State, w: nat, c: Chunk)
    requires History(s) && w < |s.workers|
    ensures History(Sent(s, w, c))
  {
    hide Turns, Writes;
  }

  lemma SentStreams(s: State, w: nat, c: Chunk)
    requires Streams(s) && WholeDone(s) && OpenIsActive(s) && w < |s.workers|
    ensures Streams(Sent(s, w, c)) && WholeDone(Sent(s, w, c)) && OpenIsActive(Sent(s, w, c))
  {}

  lemma SentKeeps(s: State, w: nat, c: Chunk)
    requires Inv(s) && w < |s.workers| && s.workers[w].phase.WaitContinue?
    ensures var t := Sent(s, w, c);
            && WorkersOk(t) && Ownership(t) && Slot(t) && Queue(t) && History(t)
            && Streams(t) && WholeDone(t) && OpenIsActive(t)
  {
    hide WorkersOk, Ownership, Slot, Queue, History, Streams, WholeDone, OpenIsActive, Pulls, Sent;
    SentWorkers(s, w, c);
    SentSlot(s, w, c);
    SentHistory(s, w, c);
    SentStreams(s, w, c);
  }

  lemma CutPulls(s: State)
    requires Pulls(s) && Ownership(s) && Points(s, s.active)
    requires var w := s.workers[s.active.value]; w.action.Pull? && Running(w) && w.buffer.Some?
    requires s.pulledBytes <= |s.workers[s.active.value].buffer.value.data|
    ensures var w := s.workers[s.active.value];
            var c := Cut(w.buffer.value, s.pulledBytes, s.isStartDone, s.chunkSize);
            if c.pos.Final? then w.sent + [c] == Whole(s, w.buffer.value)
            else Pulls(Sent(s, s.active.value, c))
  {
    var i := s.active.value;
    var w := s.workers[i];
    assert PullOk(s, i);
    var c := Cut(w.buffer.value, s.pulledBytes, s.isStartDone, s.chunkSize);
    if !c.pos.Final? {
      var rest := Remaining(w.buffer.value, s.pulledBytes + |c.data|, true, s.chunkSize);
      assert w.sent + ([c] + rest) == (w.sent + [c]) + rest;
      var t := Sent(s, i, c);
      forall k | 0 <= k < |t.workers|
        ensures PullOk(t, k)
      {
        assert PullOk(s, k);
        assert k != i ==> !Running(s.workers[k]);
      }
    }
  }

  /** What completing the active pull does. */
  ghost predicate CompletedPull(s: State, t: State) {
    && Points(s, s.active)
    && |t.workers| == |s.workers|
    && (forall k :: 0 <= k < |s.workers| ==>
          t.workers[k] == Wake(if s.active == Some(k) then s.workers[k].(complete := true) else s.workers[k]))
    && t.queued == s.queued && t.done == s.done
    && t.active.None? && NothingPublished(t) && t.pulledBytes == 0
    && t.caller == s.caller && t.setupPosts == s.setupPosts && t.chunkSize == s.chunkSize
    && t.settingOs == s.settingOs && t.begun == s.begun && t.written == s.written && t.arrivals == s.arrivals
  }

  lemma PullDoneEffect(s: State)
    requires Points(s, s.active) && s.completePtr == s.active && s.action == Some(Pull)
    ensures CompletedPull(s, FinishActive(s, true))
  {}

  lemma PullDoneWorkers(s: State, t: State)
    requires WorkersOk(s) && Ownership(s) && s.caller.Idle? && CompletedPull(s, t)
    requires s.workers[s.active.value].phase.WaitContinue?
    ensures WorkersOk(t) && Ownership(t)
  {
    forall k | 0 <= k < |t.workers|
      ensures WorkerOk(t.workers[k])
    {
      assert WorkerOk(s.workers[k]);
    }
  }

  lemma PullDoneSlot(s: State, t: State)
    requires Slot(s) && Queue(s) && CompletedPull(s, t)
    ensures Slot(t) && Queue(t)
  {}

  lemma PullDoneHistory(s: State, t: State)
    requires History(s) && CompletedPull(s, t)
    ensures History(t)
  {
    hide Turns, Writes;
  }

  lemma PullDoneStreams(s: State, t: State)
    requires Streams(s) && WholeDone(s) && OpenIsActive(s) && CompletedPull(s, t)
    requires s.workers[s.active.value].action.Pull?
    ensures Streams(t) && WholeDone(t) && OpenIsActive(t)
  {}

  lemma PullDonePulls(s: State, c: Chunk, t: State)
    requires Pulls(s) && Ownership(s) && Points(s, s.active) && CompletedPull(Sent(s, s.active.value, c), t)
    requires var w := s.workers[s.active.value];
             w.action.Pull? && w.buffer.Some? && w.sent + [c] == Whole(s, w.buffer.value)
    ensures Pulls(t)
  {
    forall k | 0 <= k < |t.workers|
      ensures PullOk(t, k)
    {
      assert PullOk(s, k);
      assert s.active != Some(k) ==> !Running(s.workers[k]);
    }
  }

  lemma PullDoneKeeps(s: State, c: Chunk)
    requires Inv(s) && s.caller.Idle? && IsActive(s, Pull) && Points(s, s.active)
    requires s.workers[s.active.value].buffer.Some?
    requires var w := s.workers[s.active.value]; w.sent + [c] == Whole(s, w.buffer.value)
    ensures Inv(FinishActive(Sent(s, s.active.value, c), true))
  {
    ActivePullIsActive(s) by {
      hide Ownership, WorkersOk;
    }
    hide WorkersOk, Ownership, Slot, Queue, History, Streams, WholeDone, OpenIsActive, Pulls, FinishActive;
    var m := Sent(s, s.active.value, c);
    SentKeeps(s, s.active.value, c);
    PullDoneEffect(m);
    var t := FinishActive(m, true);
    PullDoneWorkers(m, t);
    PullDoneSlot(m, t);
    PullDoneHistory(m, t);
    PullDoneStreams(m, t);
    PullDonePulls(s, c, t);
  }

  lemma CutChunkIs(s: State)
    requires IsActive(s, Pull) && s.bufferPtr == s.active
    ensures var w := s.active.value;
            var clip := s.workers[w].buffer.value;
            s.pulledBytes <= |clip.data| ==>
              var c := Cut(clip, s.pulledBytes, s.isStartDone, s.chunkSize);
              CutChunk(s) == if c.pos.Final? then FinishActive(Sent(s, w, c), true) else Sent(s, w, c)
  {}

  lemma CutChunkKeeps(s: State)
    requires Inv(s) && s.caller.Idle?
    ensures Inv(CutChunk(s))
  {
    hide WorkersOk, Ownership, Slot, Queue, History, Streams, WholeDone, OpenIsActive, Pulls, FinishActive, Sent;
    if IsActive(s, Pull) {
      ActivePullIsActive(s);
      var i := s.active.value;
      var clip := s.workers[i].buffer.value;
      ActivePullOk(s);
      CutChunkIs(s);
      CutPulls(s);
      var c := Cut(clip, s.pulledBytes, s.isStartDone, s.chunkSize);
      if c.pos.Final? {
        PullDoneKeeps(s, c);
      } else {
        SentKeeps(s, i, c);
      }
    }
  }

  lemma ActivePullOk(s: State)
    requires Pulls(s) && Points(s, s.active)
    requires var w := s.workers[s.active.value]; w.action.Pull? && Running(w) && w.buffer.Some?
    ensures s.pulledBytes <= |s.workers[s.active.value].buffer.value.data|
  {
    assert PullOk(s, s.active.value);
  }

  // ------------------------------------------------- the caller goes on after the setup

  /** The caller has consumed the post of the new thread. */
  function Resumed(s: State): State
    requires s.setupPosts > 0
  {
    s.(setupPosts := s.setupPosts - 1, caller := Idle)
  }

  lemma ResumedOwnership(s: State)
    requires WorkersOk(s) && Ownership(s) && !s.caller.Idle? && s.setupPosts > 0
    ensures Ownership(Resumed(s)) && Points(s, s.active)
    ensures s.workers[s.active.value].action.Push? == s.caller.StartingPush?
  {}

  lemma ResumedRest(s: State)
    requires WorkersOk(s) && Slot(s) && Queue(s) && History(s) && Pulls(s) && s.setupPosts > 0
    ensures var t := Resumed(s);
            WorkersOk(t) && Slot(t) && Queue(t) && History(t) && Pulls(t)
  {
    var t := Resumed(s);
    hide Slot, Queue, History, WorkerOk, PullOk;
    SlotFrame(s, t);
    QueueFrame(s, t);
    HistoryFrame(s, t);
    ResumedPulls(s);
    hide Pulls;
  }

  lemma ResumedPulls(s: State)
    requires Pulls(s) && s.setupPosts > 0
    ensures Pulls(Resumed(s))
  {
    forall k | 0 <= k < |s.workers|
      ensures PullOk(Resumed(s), k)
    {
      assert PullOk(s, k);
    }
  }

  lemma ResumedStreams(s: State)
    requires DoneStreams(s) && WholeDone(s) && OpenIsActive(s) && s.setupPosts > 0
    ensures DoneStreams(Resumed(s)) && WholeDone(Resumed(s)) && OpenIsActive(Resumed(s))
  {}

  lemma ResumePullKeeps(s: State)
    requires Inv(s) && s.caller.StartingPull? && s.setupPosts > 0
    ensures Inv(Resumed(s))
  {
    hide WorkersOk, Ownership, Slot, Queue, History, DoneStreams, WholeDone, OpenIsActive, Pulls;
    ResumedOwnership(s);
    ResumedRest(s);
    ResumedStreams(s);
  }

  lemma FirstChunkStream(s: State, b: Clip)
    requires ActivePush(s) && ActiveStream(s) && s.caller.StartingPush? && s.setupPosts > 0
    requires b == Clip(s.caller.chunk.kind, s.caller.chunk.data)
    ensures ActiveStream(SetBuffer(Resumed(s), s.active.value, b))
  {
    var from := s.workers[s.active.value].from;
    assert s.arrivals[from..] == [Got(s.caller.chunk)];
    assert s.arrivals[from..][..0] == [];
    assert StreamBytes(s.arrivals[from..]) == [] + s.caller.chunk.data == b.data;
    assert StreamClip(s.arrivals[from..]) == b;
  }

  lemma FirstChunkLost(s: State, w: nat, b: Clip)
    requires WholeDone(s) && OpenIsActive(s) && w < |s.workers|
    ensures WholeDone(SetBuffer(s, w, b)) && OpenIsActive(SetBuffer(s, w, b))
  {}

  lemma ResumePushIs(s: State)
    requires s.setupPosts > 0 && s.caller.StartingPush? && s.caller.chunk.pos.Start?
    requires IsActive(Resumed(s), Push) && s.bufferPtr == s.active
    ensures ResumeCaller(s) ==
            SetBuffer(Resumed(s), s.active.value, Clip(s.caller.chunk.kind, s.caller.chunk.data))
  {}

  lemma StartingChunkIsStart(s: State)
    requires ActivePush(s) && ActiveStream(s) && s.caller.StartingPush?
    ensures s.caller.chunk.pos.Start?
  {
    assert s.arrivals[s.workers[s.active.value].from..][0] == Got(s.caller.chunk);
  }

  lemma ResumeKeeps(s: State)
    requires Inv(s) && !s.caller.Idle? && s.setupPosts > 0
    ensures Inv(ResumeCaller(s))
  {
    if s.caller.StartingPull? {
      ResumePullKeeps(s);
    } else {
      hide WorkersOk, Slot, Queue, History, DoneStreams, ActiveStream, WholeDone, OpenIsActive, Pulls;
      hide SetBuffer, ActiveOk;
      var t := Resumed(s);
      var b := Clip(s.caller.chunk.kind, s.caller.chunk.data);
      ResumedOwnership(s);
      ResumedRest(s);
      ResumedStreams(s);
      ActivePushIsActive(t);
      StartingChunkIsStart(s);
      ResumePushIs(s);
      ActiveRuns(t);
      SetBufferKeeps(t, b);
      FirstChunkStream(s, b);
      FirstChunkLost(t, t.active.value, b);
    }
  }

  // ------------------------------------------------------------------- every run

  lemma InitHolds(s: State)
    requires Init(s)
    ensures Inv(s)
  {}

  lemma PushChunkKeeps(s: State, c: Chunk)
    requires Inv(s) && s.initialized && s.caller.Idle? && !c.pos.Start?
    ensures Inv(AppendChunk(Arrived(s, Got(c)), c))
  {
    hide WorkersOk, Ownership, Slot, Queue, History, Streams, WholeDone, OpenIsActive, Pulls, FinishActive;
    ActivePushIsActive(s);
    if ActivePush(s) {
      ActiveRuns(s);
      if c.pos.Middle? {
        MiddleKeeps(s, c);
      } else {
        CompleteKeeps(s, c);
      }
    } else {
      IgnoredKeeps(s, c);
    }
  }

  lemma RunKeeps(s: State, i: nat)
    requires Inv(s) && Enabled(s, Run(i))
    ensures Inv(Apply(s, Run(i)))
  {
    hide Inv;
    var w := s.workers[i];
    if w.action.Pull? {
      if Running(w) { OfferKeeps(s, i); } else { LeaveKeeps(s, i); }
    } else if Running(w) {
      SleepKeeps(s, i);
    } else if !w.complete {
      LeaveKeeps(s, i);
    } else if w.tid != s.queued {
      OvertakenKeeps(s, i);
    } else if s.settingOs {
      SleepForSlotKeeps(s, i);
    } else {
      TakeSlotKeeps(s, i);
    }
  }

  lemma UninitKeeps(s: State)
    requires Inv(s) && s.caller.Idle?
    ensures Inv(s.(initialized := false))
  {
    var t := s.(initialized := false);
    assert WorkersOk(t) && Ownership(t) by {
      hide Slot, Queue, History, Streams, WholeDone, OpenIsActive, Pulls, WorkerOk;
    }
    hide WorkersOk, Ownership, Slot, Queue, History, Streams, WholeDone, OpenIsActive, Pulls;
    SlotFrame(s, t);
    QueueFrame(s, t);
    HistoryFrame(s, t);
    StreamsFrame(s, t);
    LostFrame(s, t);
    PullsFrame(s, t);
  }

  lemma StepKeeps(s: State, step: Step)
    requires Inv(s) && Enabled(s, step)
    ensures Inv(Apply(s, step))
  {
    hide Inv, AppendChunk, CutChunk, Interrupt, ResumeCaller, PublishWorker;
    match step
    case PushChunk(chunk, created, tid) =>
      if !chunk.pos.Start? {
        PushChunkKeeps(s, chunk);
      } else if created {
        StartKeeps(s, Got(chunk), Push, tid, StartingPush(chunk));
      } else {
        InterruptAloneKeeps(s, StartFailed);
      }
    case PollPull(updated, created, tid) =>
      if !updated {
        CutChunkKeeps(s);
      } else if created {
        StartKeeps(s, LocalUpdate, Pull, tid, StartingPull);
      } else {
        InterruptAloneKeeps(s, LocalUpdate);
      }
    case Resume => ResumeKeeps(s);
    case Publish(w) => PublishKeeps(s, w);
    case Fetch(w, clip) => FetchKeeps(s, w, clip);
    case Run(w) => RunKeeps(s, w);
    case WriteOs(w) => WriteKeeps(s, w);
    case EndSet(w) => ReleaseKeeps(s, w);
    case Exit(w) => ExitKeeps(s, w);
    case Destroy =>
      InterruptAloneKeeps(s, Shutdown);
      InterruptIdle(s, Shutdown);
      UninitKeeps(Interrupt(s, Shutdown));
  }

  /** Every state of every schedule satisfies the invariant. */
  lemma {:induction false} Reachable(s: State, steps: seq<Step>)
    requires Init(s) && Execute(s, steps).Some?
    ensures Inv(Execute(s, steps).value)
  {
    if steps == [] {
      InitHolds(s);
    } else {
      hide Inv, Apply, Enabled;
      Reachable(s, steps[..|steps| - 1]);
      StepKeeps(Execute(s, steps[..|steps| - 1]).value, steps[|steps| - 1]);
    }
  }
}
