/**
  The hand-over of encoded frames from the video thread (send_populated_frames and
  send_empty_frame) to the packet thread (multithreaded_send_video_packets) in
  protocol/server/video.c: two buffers, one index, two semaphores. A step is one
  semaphore operation or one group of plain accesses between two of them; filling a
  buffer and sending one take time, and the other thread may run meanwhile.
 */
module FrameHandoff {
  import opened Wrappers

  /** An empty frame says that nothing has changed; its length is settled only when it is handed over. */
  datatype Frame = Frame(id: int, empty: bool, payload: seq<int>)

  /** The video thread. `k` is the buffer it writes to. */
  datatype Producer =
    | Encoding                          // no buffer in use
    | Filling(k: nat, frame: Frame)     // writing encoded_frame_buf[k]
    | AwaitConsumer(k: nat, frame: Frame)
    | HasConsumer(k: nat, frame: Frame) // may still amend the buffer
    | IdSet(k: nat, frame: Frame)       // send_frame_id written, index not yet flipped
    | Flipped                           // about to post `producer`
    | Stopped                           // has asked the other thread to exit

  /** The packet thread. `k` is the buffer it reads. */
  datatype Sender = AwaitProducer | Woken | Sending(k: nat) | Sent(k: nat) | Exited

  /** The contents of a buffer are None while it is being written. */
  datatype Shared = Shared(slots: seq<Option<Frame>>, index: nat, sendFrameId: int, run: bool)

  datatype State = State(
    mem: Shared,
    consumerSem: nat, producerSem: nat,
    producer: Producer, sender: Sender,
    id: int,                                     // the video loop's frame counter
    handed: seq<Frame>,                          // history: frames handed over
    taken: seq<(Option<Frame>, int)>)            // history: what the packet thread took, with send_frame_id

  datatype Step =
    | SkipId                      // id++ without a frame (oversized or empty encode)
    | Begin(empty: bool, payload: seq<int>)   // id++ and start filling the buffer that is not being sent
    | Fill
    | WaitConsumer
    | SetId(padding: seq<int>)    // pad an empty frame, write send_frame_id
    | Flip
    | PostProducer
    | Stop                        // the video loop ends
    | WaitProducer
    | CheckRun
    | Take                        // read the buffer and send_frame_id, send the packet
    | PostConsumer

  function Put(m: Shared, k: nat, f: Option<Frame>): Shared {
    if k < |m.slots| then m.(slots := m.slots[k := f]) else m
  }

  predicate Enabled(s: State, step: Step) {
    match step
    case SkipId => s.producer.Encoding?
    case Begin(_, _) => s.producer.Encoding?
    case Fill => s.producer.Filling?
    case WaitConsumer => s.producer.AwaitConsumer? && s.consumerSem > 0
    case SetId(_) => s.producer.HasConsumer?
    case Flip => s.producer.IdSet?
    case PostProducer => s.producer.Flipped?
    case Stop => s.producer.Encoding?
    case WaitProducer => s.sender.AwaitProducer? && s.producerSem > 0
    case CheckRun => s.sender.Woken?
    case Take => s.sender.Sending?
    case PostConsumer => s.sender.Sent?
  }

  function Other(k: nat): nat {
    if k == 0 then 1 else 0
  }

  function Apply(s: State, step: Step): State
    requires Enabled(s, step)
  {
    match step
    case SkipId => s.(id := s.id + 1)
    case Begin(empty, p) =>
      var k := Other(s.mem.index);
      s.(id := s.id + 1, producer := Filling(k, Frame(s.id + 1, empty, p)), mem := Put(s.mem, k, None))
    case Fill =>
      s.(producer := AwaitConsumer(s.producer.k, s.producer.frame),
         mem := Put(s.mem, s.producer.k, Some(s.producer.frame)))
    case WaitConsumer =>
      s.(producer := HasConsumer(s.producer.k, s.producer.frame), consumerSem := s.consumerSem - 1)
    case SetId(p) =>
      var f := if s.producer.frame.empty then s.producer.frame.(payload := p) else s.producer.frame;
      s.(producer := IdSet(s.producer.k, f), mem := Put(s.mem, s.producer.k, Some(f)).(sendFrameId := f.id))
    case Flip =>
      s.(producer := Flipped, mem := s.mem.(index := Other(s.mem.index)), handed := s.handed + [s.producer.frame])
    case PostProducer => s.(producer := Encoding, producerSem := s.producerSem + 1)
    case Stop => s.(producer := Stopped, mem := s.mem.(run := false), producerSem := s.producerSem + 1)
    case WaitProducer => s.(sender := Woken, producerSem := s.producerSem - 1)
    case CheckRun =>
      if s.mem.run then s.(sender := Sending(s.mem.index))
      else s.(sender := Exited, consumerSem := s.consumerSem + 1)
    case Take =>
      var f := if s.sender.k < |s.mem.slots| then s.mem.slots[s.sender.k] else None;
      s.(sender := Sent(s.sender.k), taken := s.taken + [(f, s.mem.sendFrameId)])
    case PostConsumer => s.(sender := AwaitProducer, consumerSem := s.consumerSem + 1)
  }

  predicate Init(s: State) {
    && |s.mem.slots| == 2 && s.mem.index < 2 && s.mem.run
    && s.consumerSem == 1 && s.producerSem == 0
    && s.producer.Encoding? && s.sender.AwaitProducer?
    && s.handed == [] && s.taken == []
  }

  function Execute(s: State, steps: seq<Step>): Option<State> {
    if steps == [] then Some(s)
    else
      var before := Execute(s, steps[..|steps| - 1]);
      if before.Some? && Enabled(before.value, steps[|steps| - 1])
      then Some(Apply(before.value, steps[|steps| - 1]))
      else None
  }
}
