/**
  What the clipboard synchronizer guarantees, over every schedule of callers and
  transfer threads. Each lemma speaks of the state `s` that a schedule leads to.
 */
module ClipboardSyncTheorems {
  import opened Wrappers
  import opened ClipboardChunks
  import opened ClipboardSync
  import opened ClipboardSyncProofs

  ghost predicate Reached(s: State, init: State, steps: seq<Step>) {
    Init(init) && Execute(init, steps) == Some(s)
  }

  /** Inside set_os_clipboard, or still holding the right to be there. */
  predicate IsSetter(w: Worker) {
    w.phase.Setting? || w.phase.SetDone?
  }

  /** At most one thread sets the OS clipboard at a time, and the flag says whether one does. */
  lemma OneSetter(s: State, init: State, steps: seq<Step>)
    requires Reached(s, init, steps)
    ensures forall j, k :: 0 <= j < |s.workers| && 0 <= k < |s.workers| ==>
              IsSetter(s.workers[j]) && IsSetter(s.workers[k]) ==> j == k
    ensures s.settingOs <==> exists k :: 0 <= k < |s.workers| && IsSetter(s.workers[k])
  {
    ReachedInv(s, init, steps);
    hide Reached;
    hide WorkersOk, Ownership, Queue, History, Streams, WholeDone, OpenIsActive, Pulls;
    if s.settingOs {
      assert IsSetter(s.workers[s.begun[|s.begun| - 1].w]);
    }
  }

  /**
    Write `j` is by completion number `begun[j].completions`, and these numbers grow, so
    the writes are in the order of completion; no push completes, or writes, twice.
   */
  ghost predicate InCompletionOrder(done: seq<Done>, begun: seq<Begin>, written: seq<Write>) {
    && |written| <= |begun|
    && (forall j :: 0 <= j < |written| ==>
          0 < begun[j].completions <= |done| && written[j].w == done[begun[j].completions - 1].w)
    && (forall j, k :: 0 <= j < k < |written| ==> begun[j].completions < begun[k].completions)
    && (forall j, k :: 0 <= j < k < |done| ==> done[j].w != done[k].w)
  }

  /**
    The OS clipboard is written in the order the pushes completed, each write by the push
    that was the latest to have completed when it became the setter.
   */
  lemma WritesInCompletionOrder(s: State, init: State, steps: seq<Step>)
    requires Reached(s, init, steps)
    ensures InCompletionOrder(s.done, s.begun, s.written)
  {
    ReachedInv(s, init, steps);
    hide Reached, Inv, Completions, Turns, Writes, InCompletionOrder;
    HistoryOf(s);
    DoneOnce(s);
    WritesInTurn(s.done, s.begun, s.written);
  }

  lemma HistoryOf(s: State)
    requires Inv(s)
    ensures Completions(s) && Turns(s.done, s.begun) && Writes(s.begun, s.written) && DoneStreams(s)
  {
    hide Completions, Turns, Writes, DoneStreams;
  }

  lemma DoneOnce(s: State)
    requires Completions(s)
    ensures forall j, k :: 0 <= j < k < |s.done| ==> s.done[j].w != s.done[k].w
  {}

  lemma WritesInTurn(done: seq<Done>, begun: seq<Begin>, written: seq<Write>)
    requires Turns(done, begun) && Writes(begun, written)
    requires forall j, k :: 0 <= j < k < |done| ==> done[j].w != done[k].w
    ensures InCompletionOrder(done, begun, written)
  {}

  lemma ReachedInv(s: State, init: State, steps: seq<Step>)
    requires Reached(s, init, steps)
    ensures Inv(s)
  {
    Reachable(init, steps);
  }

  /** A push that takes the slot is the latest that has completed: one that was overtaken leaves without setting. */
  lemma OvertakenNeverSets(s: State, init: State, steps: seq<Step>, i: nat)
    requires Reached(s, init, steps) && i < |s.workers| && Runnable(s.workers[i])
    requires s.workers[i].action.Push? && s.workers[i].complete
    ensures RunPush(s, i).workers[i].phase.Setting? ==> |s.done| > 0 && s.done[|s.done| - 1].w == i
    ensures |s.done| > 0 && s.done[|s.done| - 1].w != i ==>
              RunPush(s, i).workers[i].phase.Leaving? && RunPush(s, i).written == s.written
  {
    ReachedInv(s, init, steps);
    hide Reached;
    hide WorkersOk, Ownership, Slot, Queue, History, Streams, WholeDone, OpenIsActive, Pulls;
    if s.workers[i].tid == s.queued {
      QueuedIs(s, i);
    }
  }

  /** Nobody will run without a further call: every worker has exited or sleeps unsignalled. */
  predicate AllQuiet(s: State) {
    && s.caller.Idle?
    && forall k :: 0 <= k < |s.workers| ==>
         || s.workers[k].phase.Exited?
         || s.workers[k].phase == WaitContinue(false) || s.workers[k].phase == WaitSlot(false)
  }

  /** The last write is that of the push that completed last: its stream, whole. */
  ghost predicate LastPushWritten(done: seq<Done>, arrivals: seq<Arrival>, written: seq<Write>) {
    |done| > 0 ==>
      var d := done[|done| - 1];
      && IsStream(arrivals, d.from, d.to)
      && |written| > 0
      && written[|written| - 1] == Write(d.w, StreamClip(arrivals[d.from..d.to + 1]))
  }

  /**
    Last writer wins. Once everything is quiet the last write of the OS clipboard is
    that of the push that completed last, with the bytes of its stream; nobody waits
    for the slot and only the active transfer is left.
   */
  lemma LastWriterWins(s: State, init: State, steps: seq<Step>)
    requires Reached(s, init, steps) && AllQuiet(s)
    ensures s.queued == 0 && !s.settingOs
    ensures forall k :: 0 <= k < |s.workers| && Live(s.workers[k]) ==> s.active == Some(k)
    ensures LastPushWritten(s.done, s.arrivals, s.written)
  {
    ReachedInv(s, init, steps);
    hide Reached, WorkersOk, Ownership, Slot, Queue, History, DoneStreams, ActiveStream, WholeDone, OpenIsActive, Pulls;
    hide AllQuiet, LastPushWritten;
    NobodySets(s);
    NobodyQueued(s);
    OnlyActiveSleeps(s);
    LastWrite(s);
  }

  lemma NobodySets(s: State)
    requires Slot(s) && AllQuiet(s)
    ensures !s.settingOs && |s.written| == |s.begun|
  {}

  lemma NobodyQueued(s: State)
    requires WorkersOk(s) && Queue(s) && AllQuiet(s) && !s.settingOs
    ensures s.queued == 0
  {
    assert s.queued != 0 ==> WorkerOk(s.workers[s.done[|s.done| - 1].w]);
  }

  lemma OnlyActiveSleeps(s: State)
    requires WorkersOk(s) && Ownership(s) && Queue(s) && AllQuiet(s) && !s.settingOs
    ensures forall k :: 0 <= k < |s.workers| && Live(s.workers[k]) ==> s.active == Some(k)
  {
    forall k | 0 <= k < |s.workers| && Live(s.workers[k])
      ensures s.active == Some(k)
    {
      assert WorkerOk(s.workers[k]);
    }
  }

  lemma LastWrite(s: State)
    requires Queue(s) && History(s) && DoneStreams(s) && s.queued == 0 && |s.written| == |s.begun|
    ensures LastPushWritten(s.done, s.arrivals, s.written)
  {
    hide IsStream, StreamClip, Completions;
    if |s.done| > 0 {
      var j := |s.written| - 1;
      assert s.written[j].w == s.begun[j].w;
      assert s.done[s.begun[j].completions - 1].w == s.begun[j].w;
    }
  }

  /** Published pointers are the active worker's, and it is live with neither flag set. */
  ghost predicate PointersLive(s: State) {
    forall p: nat :: s.abortPtr == Some(p) || s.completePtr == Some(p) || s.bufferPtr == Some(p) ==>
      && s.active == Some(p) && p < |s.workers|
      && !s.workers[p].aborting && !s.workers[p].complete
      && !s.workers[p].phase.Leaving? && !s.workers[p].phase.Exited?
  }

  /** A worker with neither flag set is the active one; with no call under way its flags are published. */
  ghost predicate RunningIsPublished(s: State) {
    forall k :: 0 <= k < |s.workers| && !s.workers[k].aborting && !s.workers[k].complete ==>
      && s.active == Some(k) && k == |s.workers| - 1
      && (s.caller.Idle? ==> s.abortPtr == Some(k) && s.completePtr == Some(k) && s.action == Some(s.workers[k].action))
  }

  /**
    Pointers into a thread's locals. Whenever one is published it belongs to the
    active worker, which is live and has neither flag set, so no thread leaves while
    a pointer to its locals is out; and with the mutex free a worker with neither
    flag set is the active one, and its flags are published.
   */
  lemma PublishedPointersAreLive(s: State, init: State, steps: seq<Step>)
    requires Reached(s, init, steps)
    ensures PointersLive(s) && RunningIsPublished(s)
  {
    ReachedInv(s, init, steps);
    hide Reached;
    hide Ownership, Slot, Queue, History, Streams, WholeDone, OpenIsActive, Pulls, WorkersOk;
    hide PointersLive, RunningIsPublished;
    PointersOfActive(s);
  }

  lemma PointersOfActive(s: State)
    requires Ownership(s)
    ensures PointersLive(s) && RunningIsPublished(s)
  {}

  /** No lost wake-up: a worker asleep and unsignalled has nothing to do yet. */
  lemma SleepersHaveReason(s: State, init: State, steps: seq<Step>, k: nat)
    requires Reached(s, init, steps) && k < |s.workers|
    ensures s.workers[k].phase == WaitContinue(false) ==> !s.workers[k].aborting && !s.workers[k].complete
    ensures s.workers[k].phase == WaitSlot(false) ==> s.settingOs && s.queued == s.workers[k].tid
  {
    ReachedInv(s, init, steps);
    hide Reached;
    hide Ownership, Slot, History, Streams, WholeDone, OpenIsActive, Pulls;
    assert WorkerOk(s.workers[k]);
  }

  /**
    Whatever interleaves, each clipboard written is the concatenation, in arrival
    order, of one whole START..FINAL stream, with the START chunk's type.
   */
  lemma WrittenClipIsOneStream(s: State, init: State, steps: seq<Step>, j: nat)
    requires Reached(s, init, steps) && j < |s.written|
    ensures IsOneStream(s.arrivals, s.written[j].clip)
  {
    ReachedInv(s, init, steps);
    hide Reached, Inv, Completions, Turns, Writes, DoneStreams, IsOneStream;
    HistoryOf(s);
    var n := WriterCompleted(s.done, s.begun, s.written, j);
    WrittenStream(s, j, n);
  }

  /** The completion that write `j` belongs to. */
  lemma WriterCompleted(done: seq<Done>, begun: seq<Begin>, written: seq<Write>, j: nat) returns (n: nat)
    requires Turns(done, begun) && Writes(begun, written) && j < |written|
    ensures n < |done| && done[n].w == written[j].w
  {
    n := begun[j].completions - 1;
  }

  lemma WrittenStream(s: State, j: nat, n: nat)
    requires DoneStreams(s) && j < |s.written| && n < |s.done| && s.done[n].w == s.written[j].w
    ensures IsOneStream(s.arrivals, s.written[j].clip)
  {
    var d := s.done[n];
    assert IsStream(s.arrivals, d.from, d.to);
    hide StreamClip, IsOneStream;
    assert s.written[j].clip == StreamClip(s.arrivals[d.from..d.to + 1]);
    StreamAt(s.arrivals, s.written[j].clip, d.from, d.to);
  }

  /** The clipboard is the concatenation of one whole stream among the arrivals, with its START's type. */
  ghost predicate IsOneStream(arrivals: seq<Arrival>, clip: Clip) {
    exists from, to :: IsStream(arrivals, from, to) && clip == StreamClip(arrivals[from..to + 1])
  }

  lemma StreamAt(arrivals: seq<Arrival>, clip: Clip, from: int, to: int)
    requires IsStream(arrivals, from, to) && clip == StreamClip(arrivals[from..to + 1])
    ensures IsOneStream(arrivals, clip)
  {}

  /** Completed pushes are exactly the whole streams that arrived. */
  lemma CompletionsAreTheStreams(s: State, init: State, steps: seq<Step>, from: int, to: int)
    requires Reached(s, init, steps)
    ensures IsStream(s.arrivals, from, to) <==> IsDone(s.done, from, to)
  {
    ReachedInv(s, init, steps);
    hide Reached;
    hide WorkersOk, Ownership, Slot, Queue, History, OpenIsActive, Pulls, ActiveStream;
  }

  /** A pull that completed has sent the whole transfer of the clipboard it read; an aborted one a prefix of it. */
  lemma PullsSendTheClip(s: State, init: State, steps: seq<Step>, k: nat)
    requires Reached(s, init, steps) && k < |s.workers| && s.workers[k].action.Pull? && s.workers[k].sent != []
    ensures s.workers[k].buffer.Some? && s.chunkSize > 0
    ensures s.workers[k].sent <= Remaining(s.workers[k].buffer.value, 0, false, s.chunkSize)
    ensures s.workers[k].complete ==> IsTransfer(s.workers[k].sent, s.workers[k].buffer.value, s.chunkSize)
  {
    ReachedInv(s, init, steps);
    hide Reached;
    hide WorkersOk, Ownership, Slot, Queue, History, Streams, WholeDone, OpenIsActive;
    assert PullOk(s, k);
    PullShape(s.workers[k].buffer.value, s.chunkSize);
  }
}
