/** What the buffering/playing machine of render_audio guarantees. */
module AudioPlaybackTheorems {
  import Scaling = AudioScaling
  import opened AudioPlayback

  /** The allocation is that of init_audio: one frame more than the largest target. */
  lemma AllocationSize()
    ensures BUFFER_SIZE as real == DECODED_BYTES_PER_FRAME as real * (TARGET_MAX + 1.0)
    ensures FILL_MAX as real == DECODED_BYTES_PER_FRAME as real * (TARGET_MAX - 1.0)
  {}

  lemma DeliveredConserves(p: Playback, d: Decoded)
    requires Fits(p)
    ensures Stream(Delivered(p, d)) == Stream(p) + d.data
  {}

  lemma DeliveredFits(p: Playback, d: Decoded)
    requires Fits(p) && d.target <= TARGET_MAX
    ensures Fits(Delivered(p, d))
  {}

  lemma Associates(a: seq<Byte>, b: seq<Byte>, c: seq<Byte>)
    ensures (a + b) + c == a + (b + c)
  {}

  lemma {:induction false} PacketConserves(p: Playback, frames: seq<Decoded>)
    requires Fits(p) && TargetsInRange(frames)
    ensures Fits(DeliveredAll(p, frames))
    ensures Stream(DeliveredAll(p, frames)) == Stream(p) + Concatenated(frames)
    decreases |frames|
  {
    if frames == [] {
      assert Stream(p) + [] == Stream(p);
    } else {
      var n := |frames| - 1;
      PacketConserves(p, frames[..n]);
      var q := DeliveredAll(p, frames[..n]);
      DeliveredConserves(q, frames[n]);
      DeliveredFits(q, frames[n]);
      hide Fits, Delivered, Stream, Concatenated;
      Associates(Stream(p), Concatenated(frames[..n]), frames[n].data);
    }
  }

  // ------------------------------------------------------------------ whole sessions

  /** A rendered packet: whether the device was open, whether it was dry, what came out. */
  datatype Packet = Packet(open: bool, dry: bool, frames: seq<Decoded>)

  function Rendered(p: Playback, packet: Packet): Playback {
    if packet.open then DeliveredAll(DryChecked(p, packet.dry), packet.frames) else p
  }

  function Session(packets: seq<Packet>): Playback {
    if packets == [] then Playback(Buffering, [], [])
    else Rendered(Session(packets[..|packets| - 1]), packets[|packets| - 1])
  }

  /** Everything the decoder yielded, in order. */
  function DecodedStream(packets: seq<Packet>): seq<Byte> {
    if packets == [] then []
    else
      var last := packets[|packets| - 1];
      DecodedStream(packets[..|packets| - 1]) + if last.open then Concatenated(last.frames) else []
  }

  /**
    Audio is conserved in every session: what the frontend got, followed by the buffer,
    is the decoded stream in order; nothing is left behind while playing; and the buffer
    stays below its allocation, however the target changes between frames.
   */
  lemma {:induction false} Conservation(packets: seq<Packet>)
    requires forall k :: 0 <= k < |packets| ==> TargetsInRange(packets[k].frames)
    ensures var p := Session(packets);
            && p.handed + p.kept == DecodedStream(packets)
            && (p.state == Playing ==> p.handed == DecodedStream(packets))
            && Fits(p) && FILL_MAX < BUFFER_SIZE
    decreases |packets|
  {
    if packets != [] {
      var n := |packets| - 1;
      Conservation(packets[..n]);
      PacketConserves(DryChecked(Session(packets[..n]), packets[n].dry), packets[n].frames);
    }
  }

  /** Bytes already handed over are never taken back or reordered. */
  lemma {:induction false} HandedOnlyGrows(p: Playback, frames: seq<Decoded>)
    ensures p.handed <= DeliveredAll(p, frames).handed
    decreases |frames|
  {
    if frames != [] {
      HandedOnlyGrows(p, frames[..|frames| - 1]);
    }
  }

  /** Playing starts only with more than one frame less than the target in hand. */
  lemma PlayingStartsFull(p: Playback, d: Decoded)
    requires p.state == Buffering && Delivered(p, d).state == Playing
    ensures Delivered(p, d).handed[|p.handed|..] == p.kept + d.data
    ensures Enough(|Delivered(p, d).handed| - |p.handed|, d.target)
  {}

  // ------------------------------------------------------------------ when playing starts

  /**
    A frame that is buffered, or that finds the device dry, starts the playing exactly when it
    brings what is kept above the target less one frame.
   */
  lemma PlaysExactly(p: Playback, d: Decoded)
    requires Fits(p) && (p.state == Buffering || d.dry)
    ensures Delivered(p, d).state == Playing <==> (|p.kept| + |d.data|) as real > (d.target - 1.0) * 3840.0
  {}

  /** While playing, a frame that does not find the device dry goes straight to it. */
  lemma KeepsPlaying(p: Playback, d: Decoded)
    requires Fits(p) && p.state == Playing && !d.dry
    ensures Delivered(p, d) == Playback(Playing, [], p.handed + d.data)
  {}

  /** Full-size frames under one target. */
  ghost predicate Uniform(frames: seq<Decoded>, target: real) {
    forall k :: 0 <= k < |frames| ==> |frames[k].data| == DECODED_BYTES_PER_FRAME && frames[k].target == target
  }

  /** From empty, all of the first frames are kept until they are one less than the target, whatever the device says. */
  lemma {:induction false} FirstFramesAreKept(frames: seq<Decoded>, target: real)
    requires Uniform(frames, target) && target <= TARGET_MAX && |frames| as real <= target - 1.0
    ensures var p := DeliveredAll(Playback(Buffering, [], []), frames);
            p.state == Buffering && p.handed == [] && |p.kept| == |frames| * DECODED_BYTES_PER_FRAME
    decreases |frames|
  {
    if frames != [] {
      var n := |frames| - 1;
      FirstFramesAreKept(frames[..n], target);
      var p := DeliveredAll(Playback(Buffering, [], []), frames[..n]);
      PlaysExactly(p, frames[n]);
    }
  }

  /** From empty, on a device that has not run dry since, n frames are still being kept exactly when n <= target - 1. */
  lemma {:induction false} StartsAtTarget(frames: seq<Decoded>, target: real)
    requires Uniform(frames, target) && 1.0 <= target <= TARGET_MAX
    requires forall k :: 0 <= k < |frames| ==> !frames[k].dry
    ensures DeliveredAll(Playback(Buffering, [], []), frames).state == Buffering <==> |frames| as real <= target - 1.0
    decreases |frames|
  {
    if |frames| as real <= target - 1.0 {
      FirstFramesAreKept(frames, target);
    } else {
      var n := |frames| - 1;
      StartsAtTarget(frames[..n], target);
      var p := DeliveredAll(Playback(Buffering, [], []), frames[..n]);
      PacketConserves(Playback(Buffering, [], []), frames[..n]);
      if n as real <= target - 1.0 {
        FirstFramesAreKept(frames[..n], target);
        PlaysExactly(p, frames[n]);
      } else {
        KeepsPlaying(p, frames[n]);
      }
    }
  }
}
