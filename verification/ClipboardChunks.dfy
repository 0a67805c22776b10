/**
  The chunk format of the clipboard synchronizer
  (protocol/whist/clipboard/clipboard_synchronizer.c): how one clipboard is cut
  into a START, any number of MIDDLEs and one empty FINAL, and how pushing those
  chunks rebuilds it. CHUNK_SIZE is a parameter.
 */
module ClipboardChunks {
  import opened Wrappers

  type Byte = b: int | 0 <= b < 256

  datatype ClipType = NoClip | Text | Image | Files

  datatype Clip = Clip(kind: ClipType, data: seq<Byte>)

  datatype ChunkPos = Start | Middle | Final

  datatype Chunk = Chunk(pos: ChunkPos, kind: ClipType, data: seq<Byte>)

  /** The chunk cut from `clip` when `pulled` bytes have already gone out. */
  function Cut(clip: Clip, pulled: nat, startDone: bool, chunkSize: nat): Chunk
    requires pulled <= |clip.data|
  {
    var left := |clip.data| - pulled;
    var n := if left <= chunkSize then left else chunkSize;
    Chunk(if !startDone then Start else if pulled == |clip.data| then Final else Middle,
          clip.kind, clip.data[pulled..pulled + n])
  }

  /** The buffer after one more chunk: START overwrites it, the others append. */
  function Pushed(buffer: Clip, chunk: Chunk): Clip {
    if chunk.pos.Start? then Clip(chunk.kind, chunk.data)
    else Clip(buffer.kind, buffer.data + chunk.data)
  }

  /** Every chunk still to come, down to the FINAL one. */
  function Remaining(clip: Clip, pulled: nat, startDone: bool, chunkSize: nat): seq<Chunk>
    requires pulled <= |clip.data| && 0 < chunkSize
    decreases |clip.data| - pulled, !startDone
  {
    var c := Cut(clip, pulled, startDone, chunkSize);
    if c.pos.Final? then [c]
    else [c] + Remaining(clip, pulled + |c.data|, true, chunkSize)
  }

  /** All the bytes of a list of chunks, in order. */
  function Bytes(chunks: seq<Chunk>): seq<Byte> {
    if chunks == [] then [] else Bytes(chunks[..|chunks| - 1]) + chunks[|chunks| - 1].data
  }

  lemma {:induction false} BytesConcat(a: seq<Chunk>, b: seq<Chunk>)
    ensures Bytes(a + b) == Bytes(a) + Bytes(b)
    decreases |b|
  {
    if b == [] {
      assert a + b == a;
    } else {
      assert (a + b)[..|a + b| - 1] == a + b[..|b| - 1];
      BytesConcat(a, b[..|b| - 1]);
    }
  }

  lemma BytesOne(c: Chunk)
    ensures Bytes([c]) == c.data
  {
    assert [c][..0] == [];
    assert Bytes([c]) == [] + c.data;
  }

  /**
    A well-formed transfer of `clip`: one START, MIDDLEs that are never empty,
    one empty FINAL, every chunk carrying the clipboard's type and at most
    `chunkSize` bytes, all but the last two exactly that many, and the bytes
    adding up to the clipboard.
   */
  ghost predicate IsTransfer(chunks: seq<Chunk>, clip: Clip, chunkSize: nat) {
    && |chunks| >= 2
    && chunks[0].pos.Start?
    && chunks[|chunks| - 1] == Chunk(Final, clip.kind, [])
    && (forall k :: 0 < k < |chunks| - 1 ==> chunks[k].pos.Middle? && chunks[k].data != [])
    && (forall k :: 0 <= k < |chunks| ==> chunks[k].kind == clip.kind && |chunks[k].data| <= chunkSize)
    && (forall k :: 0 <= k < |chunks| - 2 ==> |chunks[k].data| == chunkSize)
    && Bytes(chunks) == clip.data
  }

  /** `m` is the number of chunks of `chunkSize` bytes needed for `n` bytes: the rounded-up quotient. */
  ghost predicate IsCeiling(m: nat, n: nat, chunkSize: nat) {
    n <= m * chunkSize && (m == 0 || (m - 1) * chunkSize < n)
  }

  lemma CeilingStep(m: nat, n: nat, chunkSize: nat, taken: nat)
    requires 0 < taken <= n && taken <= chunkSize && (taken == chunkSize || taken == n)
    requires IsCeiling(m, n - taken, chunkSize)
    ensures IsCeiling(m + 1, n, chunkSize)
  {
    assert (m + 1) * chunkSize == m * chunkSize + chunkSize;
    if m > 0 {
      assert m * chunkSize == (m - 1) * chunkSize + chunkSize;
    }
  }

  /** The chunks after a START: MIDDLEs that are never empty and full but for the last, then one empty FINAL. */
  ghost predicate IsTail(r: seq<Chunk>, kind: ClipType, chunkSize: nat) {
    && |r| >= 1
    && r[|r| - 1] == Chunk(Final, kind, [])
    && (forall k :: 0 <= k < |r| - 1 ==> r[k].pos.Middle? && r[k].data != [])
    && (forall k :: 0 <= k < |r| ==> r[k].kind == kind && |r[k].data| <= chunkSize)
    && (forall k :: 0 <= k < |r| - 2 ==> |r[k].data| == chunkSize)
  }

  lemma TailGrows(c: Chunk, rest: seq<Chunk>, chunkSize: nat)
    requires IsTail(rest, c.kind, chunkSize)
    requires c.pos.Middle? && 0 < |c.data| <= chunkSize && (|rest| > 1 ==> |c.data| == chunkSize)
    ensures IsTail([c] + rest, c.kind, chunkSize)
  {}

  /** After the START: the rest is MIDDLEs, ceil(left / chunkSize) of them, full but for the last, and the FINAL. */
  lemma {:induction false} RemainingShape(clip: Clip, pulled: nat, chunkSize: nat)
    requires pulled <= |clip.data| && 0 < chunkSize
    ensures var r := Remaining(clip, pulled, true, chunkSize);
            IsTail(r, clip.kind, chunkSize) && IsCeiling(|r| - 1, |clip.data| - pulled, chunkSize)
    decreases |clip.data| - pulled
  {
    var c := Cut(clip, pulled, true, chunkSize);
    RemainingUnfolds(clip, pulled, true, chunkSize);
    CutSize(clip, pulled, chunkSize);
    hide Cut, Remaining, IsCeiling, IsTail;
    if c.pos.Final? {
      FinalTail(clip.kind, chunkSize);
    } else {
      var next := pulled + |c.data|;
      RemainingShape(clip, next, chunkSize);
      var rest := Remaining(clip, next, true, chunkSize);
      TailLength(rest, clip.kind, |clip.data| - next, chunkSize);
      CeilingStep(|rest| - 1, |clip.data| - pulled, chunkSize, |c.data|);
      TailGrows(c, rest, chunkSize);
    }
  }

  lemma FinalTail(kind: ClipType, chunkSize: nat)
    ensures IsTail([Chunk(Final, kind, [])], kind, chunkSize) && IsCeiling(0, 0, chunkSize)
  {}

  /** Nothing but the FINAL follows when nothing is left. */
  lemma TailLength(rest: seq<Chunk>, kind: ClipType, left: nat, chunkSize: nat)
    requires IsTail(rest, kind, chunkSize) && IsCeiling(|rest| - 1, left, chunkSize) && 0 < chunkSize
    ensures |rest| >= 1 && (left == 0 ==> |rest| == 1)
  {
    if |rest| > 1 {
      assert (|rest| - 2) * chunkSize >= 0;
    }
  }

  lemma CutSize(clip: Clip, pulled: nat, chunkSize: nat)
    requires pulled <= |clip.data| && 0 < chunkSize
    ensures var c := Cut(clip, pulled, true, chunkSize);
            if pulled == |clip.data| then c == Chunk(Final, clip.kind, [])
            else
              && c.pos.Middle? && c.kind == clip.kind && 0 < |c.data| <= chunkSize && pulled + |c.data| <= |clip.data|
              && (|c.data| == chunkSize || pulled + |c.data| == |clip.data|)
  {}

  /** The bytes still to come are the bytes not yet pulled. */
  lemma {:induction false} RemainingBytes(clip: Clip, pulled: nat, startDone: bool, chunkSize: nat)
    requires pulled <= |clip.data| && 0 < chunkSize
    ensures Bytes(Remaining(clip, pulled, startDone, chunkSize)) == Unpulled(clip, pulled)
    decreases |clip.data| - pulled, !startDone
  {
    var c := Cut(clip, pulled, startDone, chunkSize);
    CutData(clip, pulled, startDone, chunkSize);
    RemainingUnfolds(clip, pulled, startDone, chunkSize);
    hide Bytes, Cut, Remaining, Unpulled;
    if c.pos.Final? {
      BytesOne(c);
    } else {
      RemainingBytes(clip, pulled + |c.data|, true, chunkSize);
      BytesCons(c, Remaining(clip, pulled + |c.data|, true, chunkSize));
    }
  }

  function Unpulled(clip: Clip, pulled: nat): seq<Byte>
    requires pulled <= |clip.data|
  {
    clip.data[pulled..]
  }

  lemma BytesCons(c: Chunk, rest: seq<Chunk>)
    ensures Bytes([c] + rest) == c.data + Bytes(rest)
  {
    BytesOne(c);
    BytesConcat([c], rest);
  }

  lemma RemainingUnfolds(clip: Clip, pulled: nat, startDone: bool, chunkSize: nat)
    requires pulled <= |clip.data| && 0 < chunkSize
    ensures var c := Cut(clip, pulled, startDone, chunkSize);
            Remaining(clip, pulled, startDone, chunkSize) ==
              if c.pos.Final? then [c] else [c] + Remaining(clip, pulled + |c.data|, true, chunkSize)
  {}

  /** A chunk takes the first of the bytes not yet pulled; a FINAL comes when there are none. */
  lemma CutData(clip: Clip, pulled: nat, startDone: bool, chunkSize: nat)
    requires pulled <= |clip.data| && 0 < chunkSize
    ensures var c := Cut(clip, pulled, startDone, chunkSize);
            && pulled + |c.data| <= |clip.data|
            && c.data + Unpulled(clip, pulled + |c.data|) == Unpulled(clip, pulled)
            && (c.pos.Final? ==> c.data == Unpulled(clip, pulled))
            && (!c.pos.Final? && startDone ==> c.data != [])
  {}

  /**
    Uninterrupted pulls give one START, then ceil(max(0, size - CHUNK_SIZE) / CHUNK_SIZE)
    MIDDLEs, then one empty FINAL, for a clipboard of any size.
   */
  lemma PullShape(clip: Clip, chunkSize: nat)
    requires 0 < chunkSize
    ensures var chunks := Remaining(clip, 0, false, chunkSize);
            && IsTransfer(chunks, clip, chunkSize)
            && IsCeiling(|chunks| - 2, if |clip.data| <= chunkSize then 0 else |clip.data| - chunkSize, chunkSize)
  {
    RemainingShape(clip, |Cut(clip, 0, false, chunkSize).data|, chunkSize);
    RemainingBytes(clip, 0, false, chunkSize);
  }

  /** Pushing a list of chunks one after the other. */
  function PushAllFrom(buffer: Clip, chunks: seq<Chunk>): Clip {
    if chunks == [] then buffer
    else Pushed(PushAllFrom(buffer, chunks[..|chunks| - 1]), chunks[|chunks| - 1])
  }

  lemma PushAllOneMore(buffer: Clip, chunks: seq<Chunk>, c: Chunk)
    ensures PushAllFrom(buffer, chunks + [c]) == Pushed(PushAllFrom(buffer, chunks), c)
  {
    assert (chunks + [c])[..|chunks|] == chunks;
  }

  /** A START-led list with no further START rebuilds START's type and all the bytes. */
  lemma {:induction false} PushAllBytes(buffer: Clip, chunks: seq<Chunk>)
    requires |chunks| > 0 && chunks[0].pos.Start?
    requires forall k :: 0 < k < |chunks| ==> !chunks[k].pos.Start?
    ensures PushAllFrom(buffer, chunks) == Clip(chunks[0].kind, Bytes(chunks))
    decreases |chunks|
  {
    var init := chunks[..|chunks| - 1];
    if |chunks| == 1 {
      assert init == [];
    } else {
      PushAllBytes(buffer, init);
    }
  }

  /** Pull, then push: the same type and the same bytes, whatever was in the buffer. */
  lemma PullPushIdentity(clip: Clip, chunkSize: nat, buffer: Clip)
    requires 0 < chunkSize
    ensures PushAllFrom(buffer, Remaining(clip, 0, false, chunkSize)) == clip
  {
    PullShape(clip, chunkSize);
    PushAllBytes(buffer, Remaining(clip, 0, false, chunkSize));
  }

  /** The sender: `pulled_bytes` and `is_start_done` of the active pull. */
  class PullTransfer {
    const clip: Clip
    const chunkSize: nat
    var pulledBytes: nat
    var isStartDone: bool
    var finished: bool

    ghost predicate Valid()
      reads this
    {
      0 < chunkSize && pulledBytes <= |clip.data|
    }

    /** What the next calls will return. */
    ghost function ToCome(): seq<Chunk>
      reads this
      requires Valid()
    {
      if finished then [] else Remaining(clip, pulledBytes, isStartDone, chunkSize)
    }

    constructor (clip: Clip, chunkSize: nat)
      requires 0 < chunkSize
      ensures Valid() && !finished && this.clip == clip && this.chunkSize == chunkSize
      ensures ToCome() == Remaining(clip, 0, false, chunkSize)
    {
      this.clip := clip;
      this.chunkSize := chunkSize;
      pulledBytes := 0;
      isStartDone := false;
      finished := false;
    }

    /** pull_clipboard_chunk on an active pull: the head of what is to come, or nothing once finished. */
    method PullChunk() returns (chunk: Option<Chunk>)
      requires Valid()
      modifies this
      ensures Valid()
      ensures old(ToCome()) == [] ==> chunk == None && ToCome() == []
      ensures old(ToCome()) != [] ==> chunk == Some(old(ToCome())[0]) && ToCome() == old(ToCome())[1..]
      ensures finished <==> ToCome() == []
    {
      if finished {
        return None;
      }
      var left := |clip.data| - pulledBytes;
      var size := if left <= chunkSize then left else chunkSize;
      var data := clip.data[pulledBytes..pulledBytes + size];
      var pos;
      if !isStartDone {
        pos := Start;
        isStartDone := true;
      } else if pulledBytes == |clip.data| {
        pos := Final;
        finished := true;
      } else {
        pos := Middle;
      }
      pulledBytes := pulledBytes + size;
      chunk := Some(Chunk(pos, clip.kind, data));
    }
  }

  /** The receiver's growing buffer; `ready` once FINAL has arrived. */
  class PushTransfer {
    var buffer: Clip
    var ready: bool

    constructor ()
      ensures buffer == Clip(NoClip, []) && !ready
    {
      buffer := Clip(NoClip, []);
      ready := false;
    }

    method PushChunk(chunk: Chunk)
      modifies this
      ensures buffer == Pushed(old(buffer), chunk)
      ensures ready == (old(ready) || chunk.pos.Final?)
    {
      if chunk.pos.Start? {
        buffer := Clip(chunk.kind, chunk.data);
      } else {
        buffer := Clip(buffer.kind, buffer.data + chunk.data);
      }
      if chunk.pos.Final? {
        ready := true;
      }
    }
  }

  lemma Regrouped(a: seq<Chunk>, b: seq<Chunk>)
    requires b != []
    ensures (a + [b[0]]) + b[1..] == a + b
  {}

  /** The sender's loop: pull until nothing more comes. */
  method PullAll(clip: Clip, chunkSize: nat) returns (chunks: seq<Chunk>)
    requires 0 < chunkSize
    ensures chunks == Remaining(clip, 0, false, chunkSize)
  {
    var sender := new PullTransfer(clip, chunkSize);
    ghost var all, toCome := sender.ToCome(), sender.ToCome();
    chunks := [];
    hide Remaining, Cut;
    while !sender.finished
      invariant sender.Valid() && toCome == sender.ToCome()
      invariant sender.finished <==> toCome == []
      invariant chunks + toCome == all
      decreases |toCome|
    {
      var next := sender.PullChunk();
      Regrouped(chunks, toCome);
      toCome := toCome[1..];
      chunks := chunks + [next.value];
    }
  }

  /** Both peers end to end: pull every chunk, push each in order of arrival. */
  method Transfer(clip: Clip, chunkSize: nat) returns (received: Clip)
    requires 0 < chunkSize
    ensures received == clip
  {
    var chunks := PullAll(clip, chunkSize);
    var receiver := new PushTransfer();
    ghost var empty := receiver.buffer;
    for i := 0 to |chunks|
      invariant receiver.buffer == PushAllFrom(empty, chunks[..i])
    {
      receiver.PushChunk(chunks[i]);
      PushAllOneMore(empty, chunks[..i], chunks[i]);
      assert chunks[..i] + [chunks[i]] == chunks[..i + 1];
    }
    assert chunks[..|chunks|] == chunks;
    PullPushIdentity(clip, chunkSize, empty);
    received := receiver.buffer;
  }
}
