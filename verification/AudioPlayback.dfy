/**
  The buffering/playing machine of render_audio (protocol/client/audio.cpp): decoded audio
  goes straight to the frontend while playing, and through a fixed-size buffer while
  buffering. Whether the device is dry, what the decoder yields and the target size the
  network thread has set by then are inputs.
 */
module AudioPlayback {
  import Scaling = AudioScaling
  import opened Sampling = AudioSampling

  type Byte = bv8

  const DECODED_BYTES_PER_FRAME: nat := 480 * 4 * 2
  const TARGET_MAX: real := Scaling.TARGET_INITIAL * Scaling.SCALE_MAX
  const BUFFER_SIZE: nat := DECODED_BYTES_PER_FRAME * 33

  datatype AudioState = Buffering | Playing

  /** `handed`: every byte handed to the frontend so far; `kept`: the buffering buffer. */
  datatype Playback = Playback(state: AudioState, kept: seq<Byte>, handed: seq<Byte>)

  /** One decoded frame, with what the device and the target were when it was handled. */
  datatype Decoded = Decoded(data: seq<Byte>, dry: bool, target: real)

  function Stream(p: Playback): seq<Byte> {
    p.handed + p.kept
  }

  function DryChecked(p: Playback, dry: bool): Playback {
    if dry then p.(state := Buffering) else p
  }

  /** Enough to start playing. */
  predicate Enough(bytes: nat, target: real) {
    bytes as real > (target - 1.0) * DECODED_BYTES_PER_FRAME as real
  }

  function Delivered(p: Playback, d: Decoded): Playback {
    var q := DryChecked(p, d.dry);
    if q.state == Playing then q.(handed := q.handed + d.data)
    else if Enough(|q.kept| + |d.data|, d.target) then Playback(Playing, [], q.handed + q.kept + d.data)
    else q.(kept := q.kept + d.data)
  }

  function DeliveredAll(p: Playback, frames: seq<Decoded>): Playback {
    if frames == [] then p
    else Delivered(DeliveredAll(p, frames[..|frames| - 1]), frames[|frames| - 1])
  }

  function Concatenated(frames: seq<Decoded>): seq<Byte> {
    if frames == [] then []
    else Concatenated(frames[..|frames| - 1]) + frames[|frames| - 1].data
  }

  /** The targets are those of a scale the scaling controller can have. */
  ghost predicate TargetsInRange(frames: seq<Decoded>) {
    forall k :: 0 <= k < |frames| ==> frames[k].target <= TARGET_MAX
  }

  /** The largest fill: one frame less than the largest target. */
  const FILL_MAX: nat := DECODED_BYTES_PER_FRAME * 31

  ghost predicate Fits(p: Playback) {
    && |p.kept| <= FILL_MAX
    && (p.state == Playing ==> p.kept == [])
  }

  class AudioContext {
    const buffer: array<Byte>
    var fill: nat
    var state: AudioState
    var handed: seq<Byte>

    ghost predicate Valid()
      reads this, buffer
    {
      && buffer.Length == BUFFER_SIZE
      && fill <= buffer.Length
      && Fits(View())
    }

    ghost function View(): Playback
      reads this, buffer
      requires fill <= buffer.Length
    {
      Playback(state, buffer[..fill], handed)
    }

    constructor ()
      ensures Valid() && View() == Playback(Buffering, [], [])
    {
      buffer := new Byte[BUFFER_SIZE](_ => 0);
      fill := 0;
      state := Buffering;
      handed := [];
    }

    method QueueAudio(data: seq<Byte>)
      requires fill <= buffer.Length
      modifies this`handed
      ensures handed == old(handed) + data
    {
      handed := handed + data;
    }

    method CheckDeviceBufferDry(dry: bool)
      requires Valid()
      modifies this`state
      ensures Valid() && View() == DryChecked(old(View()), dry)
    {
      if state != Buffering && dry {
        state := Buffering;
      }
    }

    /** The memcpy stays inside the allocation: its precondition is the one of memcpy itself. */
    method Keep(data: seq<Byte>)
      requires fill + |data| <= buffer.Length
      modifies this`fill, buffer
      ensures fill <= buffer.Length && buffer[..fill] == old(buffer[..fill]) + data
    {
      ghost var before := buffer[..fill];
      forall i | 0 <= i < |data| {
        buffer[fill + i] := data[i];
      }
      fill := fill + |data|;
      assert buffer[..fill] == before + data;
    }

    method Deliver(d: Decoded)
      requires Valid() && d.target <= TARGET_MAX
      modifies this, buffer
      ensures Valid() && View() == Delivered(old(View()), d)
    {
      CheckDeviceBufferDry(d.dry);
      if state == Buffering {
        if (fill + |d.data|) as real > (d.target - 1.0) * DECODED_BYTES_PER_FRAME as real {
          QueueAudio(buffer[..fill]);
          fill := 0;
          QueueAudio(d.data);
          state := Playing;
        } else {
          Keep(d.data);
        }
      } else {
        QueueAudio(d.data);
      }
    }

    /** render_audio for one packet; `sends` is how often the packet goes to the decoder. */
    method RenderAudio(open: bool, command: Command, dry: bool, frames: seq<Decoded>) returns (sends: nat)
      requires Valid() && TargetsInRange(frames)
      modifies this, buffer
      ensures Valid()
      ensures !open ==> sends == 0 && View() == old(View())
      ensures open ==> View() == DeliveredAll(DryChecked(old(View()), dry), frames)
      ensures open ==> sends == if command == Dup && DryChecked(old(View()), dry).state == Playing then 2 else 1
    {
      sends := 0;
      if open {
        sends := 1;
        CheckDeviceBufferDry(dry);
        if command == Dup && state != Buffering {
          sends := 2;
        }
        ghost var begun := View();
        assert frames[..0] == [];
        var k := 0;
        while k < |frames|
          invariant 0 <= k <= |frames| && Valid()
          invariant View() == DeliveredAll(begun, frames[..k])
        {
          Deliver(frames[k]);
          assert frames[..k + 1][..k] == frames[..k];
          k := k + 1;
        }
        assert frames[..|frames|] == frames;
      }
    }
  }
}
