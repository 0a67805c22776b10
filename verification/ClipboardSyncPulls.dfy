/**
  What pull_clipboard_chunk (protocol/whist/clipboard/clipboard_synchronizer.c) comes to: a
  local update starts a transfer of the clipboard, and each further poll sends its next chunk.
 */
module ClipboardSyncPulls {
  import opened Wrappers
  import opened ClipboardChunks
  import opened ClipboardSync
  import opened ClipboardSyncProofs
  import opened ClipboardSyncTheorems

  /** All the chunks of the clipboard that worker `k` has read. */
  function AllChunks(s: State, k: nat): seq<Chunk>
    requires k < |s.workers| && s.workers[k].buffer.Some? && s.chunkSize > 0
  {
    Remaining(s.workers[k].buffer.value, 0, false, s.chunkSize)
  }

  /** Polls without an update change nothing unless a pull is active. */
  lemma IdlePollDoesNothing(s: State, created: bool, tid: nat)
    requires Enabled(s, PollPull(false, created, tid)) && !IsActive(s, Pull)
    ensures Apply(s, PollPull(false, created, tid)) == s
  {}

  lemma NextIsCut(s: State)
    requires Pulls(s) && Points(s, s.active)
    requires var w := s.workers[s.active.value]; w.action.Pull? && Running(w) && w.buffer.Some?
    ensures s.pulledBytes <= |s.workers[s.active.value].buffer.value.data|
    ensures var w := s.workers[s.active.value];
            var all := AllChunks(s, s.active.value);
            var c := Cut(w.buffer.value, s.pulledBytes, s.isStartDone, s.chunkSize);
            && |w.sent| < |all| && all[|w.sent|] == c && (c.pos.Final? <==> |w.sent| + 1 == |all|)
  {
    assert PullOk(s, s.active.value);
    var w := s.workers[s.active.value];
    var clip, p := w.buffer.value, s.pulledBytes;
    RemainingUnfolds(clip, p, s.isStartDone, s.chunkSize);
    var c := Cut(clip, p, s.isStartDone, s.chunkSize);
    CutData(clip, p, s.isStartDone, s.chunkSize);
    if !c.pos.Final? {
      RemainingShape(clip, p + |c.data|, s.chunkSize);
    }
    hide Remaining, Cut, Pulls, PullOk, IsCeiling, Unpulled;
  }

  /** The worker that has sent one more chunk, and whether that completed it. */
  lemma CutSends(s: State, c: Chunk)
    requires Ownership(s) && s.caller.Idle? && IsActive(s, Pull) && s.bufferPtr == s.active && Points(s, s.active)
    ensures var k := s.active.value;
            var t := if c.pos.Final? then FinishActive(Sent(s, k, c), true) else Sent(s, k, c);
            && |t.workers| == |s.workers|
            && t.workers[k].sent == s.workers[k].sent + [c] && t.workers[k].buffer == s.workers[k].buffer
            && (t.workers[k].complete <==> c.pos.Final?)
  {}

  /**
    A poll on an active pull sends the next chunk of the clipboard it has read, and completes
    it with the last one.
   */
  lemma PollSendsNext(s: State, init: State, steps: seq<Step>, created: bool, tid: nat)
    requires Reached(s, init, steps) && Enabled(s, PollPull(false, created, tid)) && IsActive(s, Pull)
    ensures Points(s, s.active) && s.chunkSize > 0 && s.workers[s.active.value].buffer.Some?
    ensures var t := Apply(s, PollPull(false, created, tid));
            var k := s.active.value;
            var sent, all := s.workers[k].sent, AllChunks(s, k);
            && |t.workers| == |s.workers| && |sent| < |all|
            && t.workers[k].sent == sent + [all[|sent|]]
            && (t.workers[k].complete <==> |sent| + 1 == |all|)
  {
    ReachedInv(s, init, steps);
    hide Reached, Slot, Queue, History, Streams, WholeDone, OpenIsActive;
    ActivePullIsActive(s);
    NextIsCut(s);
    CutChunkIs(s);
    CutSends(s, Cut(s.workers[s.active.value].buffer.value, s.pulledBytes, s.isStartDone, s.chunkSize));
    hide WorkersOk, Ownership, Pulls, Cut, Remaining, FinishActive, Sent, CutChunk, IsActive;
  }

  /** The steps after the poll that found an update: the new thread sets up, reads the clipboard and offers it. */
  function PullSteps(n: nat, clip: Clip): seq<Step> {
    [Publish(n), Resume, Fetch(n, Some(clip)), Run(n)]
  }

  lemma StartedPull(s: State, tid: nat) returns (a: State)
    requires Ownership(s) && s.caller.Idle? && Enabled(s, PollPull(true, true, tid))
    ensures a == Apply(s, PollPull(true, true, tid))
    ensures Starting(a, |s.workers|)
  {
    a := Apply(s, PollPull(true, true, tid));
  }

  /** The caller waits for the new thread `n`, which has done nothing yet. */
  ghost predicate Starting(a: State, n: nat) {
    && |a.workers| == n + 1 && a.workers[n] == NewWorker(Pull, a.workers[n].tid, a.workers[n].from)
    && a.active == Some(n) && a.caller.StartingPull? && a.setupPosts == 0
    && a.bufferPtr.None? && a.initialized
  }

  /** The new thread `n` has offered the clipboard, of which nothing has been sent. */
  ghost predicate Offered(t: State, n: nat, clip: Clip) {
    && |t.workers| == n + 1 && t.active == Some(n) && IsActive(t, Pull)
    && t.workers[n].buffer == Some(clip) && t.workers[n].sent == []
  }

  lemma StartingOffers(a: State, n: nat, clip: Clip) returns (b: State, c: State, d: State, t: State)
    requires Starting(a, n)
    ensures Enabled(a, Publish(n)) && b == Apply(a, Publish(n))
    ensures Enabled(b, Resume) && c == Apply(b, Resume)
    ensures Enabled(c, Fetch(n, Some(clip))) && d == Apply(c, Fetch(n, Some(clip)))
    ensures Enabled(d, Run(n)) && t == Apply(d, Run(n))
    ensures Offered(t, n, clip)
  {
    b := Apply(a, Publish(n));
    c := Apply(b, Resume);
    d := Apply(c, Fetch(n, Some(clip)));
    t := Apply(d, Run(n));
  }

  /**
    A local update starts a pull: whatever was going on, the poll that reports it and four
    steps of the caller and the new thread lead to an active pull of the clipboard as it was
    read, with nothing sent yet.
   */
  lemma UpdateStartsPull(s: State, init: State, steps: seq<Step>, tid: nat, clip: Clip) returns (t: State)
    requires Reached(s, init, steps) && Enabled(s, PollPull(true, true, tid))
    ensures Execute(init, steps + [PollPull(true, true, tid)] + PullSteps(|s.workers|, clip)) == Some(t)
    ensures Offered(t, |s.workers|, clip)
  {
    ReachedInv(s, init, steps);
    hide WorkersOk, Slot, Queue, History, Streams, WholeDone, OpenIsActive, Pulls;
    var n := |s.workers|;
    var a := StartedPull(s, tid);
    hide Inv, Ownership, Starting, Offered;
    var b, c, d;
    b, c, d, t := StartingOffers(a, n, clip);
    hide Apply, Enabled;
    OneMore(init, steps, s, PollPull(true, true, tid));
    var run := steps + [PollPull(true, true, tid)];
    OneMore(init, run, a, Publish(n));
    OneMore(init, run + [Publish(n)], b, Resume);
    OneMore(init, run + [Publish(n)] + [Resume], c, Fetch(n, Some(clip)));
    OneMore(init, run + [Publish(n)] + [Resume] + [Fetch(n, Some(clip))], d, Run(n));
    Together(run, n, clip);
  }

  lemma Together(run: seq<Step>, n: nat, clip: Clip)
    ensures run + [Publish(n)] + [Resume] + [Fetch(n, Some(clip))] + [Run(n)] == run + PullSteps(n, clip)
  {}

  lemma OneMore(init: State, steps: seq<Step>, s: State, step: Step)
    requires Execute(init, steps) == Some(s) && Enabled(s, step)
    ensures Execute(init, steps + [step]) == Some(Apply(s, step))
  {
    assert (steps + [step])[..|steps|] == steps;
    hide Apply, Enabled;
  }
}
