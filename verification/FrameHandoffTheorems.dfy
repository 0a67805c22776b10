/** What the two-buffer hand-over of encoded frames guarantees, under every interleaving. */
module FrameHandoffTheorems {
  import opened Wrappers
  import opened FrameHandoff

  // ---------------------------------------------------------------- the invariant

  /** The video thread holds the right to change the index and the id. */
  predicate ProducerHasToken(p: Producer) {
    p.HasConsumer? || p.IdSet? || p.Flipped?
  }

  predicate SenderHasToken(s: Sender) {
    !s.AwaitProducer? && !s.Exited?
  }

  /** One token goes round: the right to hand over, then the frame handed over. */
  ghost predicate Tokens(s: State) {
    s.mem.run ==>
      && s.consumerSem + s.producerSem + (if ProducerHasToken(s.producer) then 1 else 0)
         + (if SenderHasToken(s.sender) then 1 else 0) == 1
      && !s.producer.Stopped? && !s.sender.Exited?
  }

  /** A frame has been handed over and not been taken. */
  predicate Outstanding(s: State) {
    |s.handed| > |s.taken|
  }

  /** The writer's buffer is never the reader's. */
  ghost predicate Places(s: State) {
    && |s.mem.slots| == 2 && s.mem.index < 2
    && (s.producer.Filling? || s.producer.AwaitConsumer? || s.producer.HasConsumer? || s.producer.IdSet? ==>
          s.producer.k == Other(s.mem.index))
    && (s.producer.AwaitConsumer? || s.producer.HasConsumer? || s.producer.IdSet? ==>
          s.mem.slots[s.producer.k] == Some(s.producer.frame))
    && (s.producer.IdSet? ==> s.mem.sendFrameId == s.producer.frame.id)
    && (s.sender.Sending? || s.sender.Sent? ==> s.sender.k == s.mem.index)
    && (!s.mem.run <==> s.producer.Stopped?)
  }

  /** Frames are taken in the order they were handed over, each with its own id, and at most one is outstanding. */
  ghost predicate InOrder(s: State) {
    && |s.taken| <= |s.handed| <= |s.taken| + 1
    && (forall j :: 0 <= j < |s.taken| ==> s.taken[j] == (Some(s.handed[j]), s.handed[j].id))
    && (forall j, k :: 0 <= j < k < |s.handed| ==> s.handed[j].id < s.handed[k].id)
    && (forall j :: 0 <= j < |s.handed| ==>
          s.handed[j].id <= s.id && (IsBuilding(s.producer) ==> s.handed[j].id < s.producer.frame.id))
    && (IsBuilding(s.producer) ==> s.producer.frame.id <= s.id)
  }

  predicate IsBuilding(p: Producer) {
    p.Filling? || p.AwaitConsumer? || p.HasConsumer? || p.IdSet?
  }

  /** An outstanding frame lies in the buffer to be sent, under its own id. */
  ghost predicate Ready(s: State) {
    && (s.sender.Sending? ==> Outstanding(s))
    && (s.mem.run ==>
          (Outstanding(s) <==> s.producer.Flipped? || s.producerSem > 0 || s.sender.Woken? || s.sender.Sending?))
    && (Outstanding(s) && |s.mem.slots| == 2 && s.mem.index < 2 ==>
          var f := s.handed[|s.handed| - 1];
          s.mem.slots[s.mem.index] == Some(f) && s.mem.sendFrameId == f.id)
  }

  /** The post that goes with the request to exit stays until the packet thread has woken up from it. */
  ghost predicate Waking(s: State) {
    !s.mem.run && !s.sender.Woken? && !s.sender.Exited? ==> s.producerSem > 0
  }

  ghost predicate Inv(s: State) {
    Tokens(s) && Places(s) && InOrder(s) && Ready(s) && Waking(s)
  }

  lemma WakingKeep(s: State, step: Step)
    requires Tokens(s) && Places(s) && Waking(s) && Enabled(s, step)
    ensures Waking(Apply(s, step))
  {}

  lemma TokensKeep(s: State, step: Step)
    requires Tokens(s) && Places(s) && Enabled(s, step)
    ensures Tokens(Apply(s, step))
  {}

  lemma PlacesKeep(s: State, step: Step)
    requires Tokens(s) && Places(s) && Enabled(s, step)
    ensures Places(Apply(s, step))
  {}

  lemma InOrderKeep(s: State, step: Step)
    requires Tokens(s) && Places(s) && InOrder(s) && Ready(s) && Enabled(s, step)
    ensures InOrder(Apply(s, step))
  {}

  lemma ReadyKeep(s: State, step: Step)
    requires Tokens(s) && Places(s) && InOrder(s) && Ready(s) && Enabled(s, step)
    ensures Ready(Apply(s, step))
  {}

  lemma {:induction false} Reachable(s: State, steps: seq<Step>)
    requires Init(s) && Execute(s, steps).Some?
    ensures Inv(Execute(s, steps).value)
  {
    if steps != [] {
      hide Apply, Enabled, Tokens, Places, InOrder, Ready, Waking;
      var init, step := steps[..|steps| - 1], steps[|steps| - 1];
      Reachable(s, init);
      var before := Execute(s, init).value;
      TokensKeep(before, step);
      PlacesKeep(before, step);
      InOrderKeep(before, step);
      ReadyKeep(before, step);
      WakingKeep(before, step);
    }
  }

  // -------------------------------------------------------------------- theorems

  ghost predicate Reached(s: State, init: State, steps: seq<Step>) {
    Init(init) && Execute(init, steps) == Some(s)
  }

  /** The buffer the video thread is writing to. */
  predicate Writes(p: Producer, k: nat) {
    (p.Filling? || p.HasConsumer?) && p.k == k
  }

  /** The buffer being sent is never the buffer being written, and it is complete. */
  lemma RaceFree(s: State, init: State, steps: seq<Step>)
    requires Reached(s, init, steps) && s.sender.Sending?
    ensures !Writes(s.producer, s.sender.k)
    ensures |s.handed| > 0 && s.sender.k < |s.mem.slots|
    ensures s.mem.slots[s.sender.k] == Some(s.handed[|s.handed| - 1])
    ensures s.mem.sendFrameId == s.handed[|s.handed| - 1].id
  {
    Reachable(init, steps);
  }

  /** Nothing the video thread does while a frame is being sent changes that frame, its id or the index. */
  lemma StableWhileSending(s: State, init: State, steps: seq<Step>, step: Step)
    requires Reached(s, init, steps) && s.sender.Sending? && Enabled(s, step) && !step.Take?
    ensures var t := Apply(s, step);
            && t.sender == s.sender && t.mem.index == s.mem.index && t.mem.sendFrameId == s.mem.sendFrameId
            && s.sender.k < |s.mem.slots| && |t.mem.slots| == |s.mem.slots|
            && t.mem.slots[s.sender.k] == s.mem.slots[s.sender.k]
  {
    Reachable(init, steps);
  }

  /**
    Every frame taken is the next one handed over, whole and under the id it was
    handed over with; ids grow strictly; at most one frame is outstanding.
   */
  lemma TakenExactlyOnceInOrder(s: State, init: State, steps: seq<Step>)
    requires Reached(s, init, steps)
    ensures |s.taken| <= |s.handed| <= |s.taken| + 1
    ensures forall j :: 0 <= j < |s.taken| ==> s.taken[j] == (Some(s.handed[j]), s.handed[j].id)
    ensures forall j, k :: 0 <= j < k < |s.handed| ==> s.handed[j].id < s.handed[k].id
  {
    Reachable(init, steps);
  }

  /** Until the video loop stops, the two threads cannot both be blocked. */
  lemma NeverBothBlocked(s: State, init: State, steps: seq<Step>)
    requires Reached(s, init, steps) && s.mem.run
    ensures s.producer.AwaitConsumer? && s.sender.AwaitProducer? ==> s.consumerSem > 0 || s.producerSem > 0
  {
    Reachable(init, steps);
  }

  /** Steps left to the packet thread once it has been asked to exit. */
  function StepsToExit(p: Sender): nat {
    match p
    case Sending(_) => 4
    case Sent(_) => 3
    case AwaitProducer => 2
    case Woken => 1
    case Exited => 0
  }

  /** The next step of the packet thread. */
  function SenderStep(p: Sender): Step {
    match p
    case Sending(_) => Take
    case Sent(_) => PostConsumer
    case AwaitProducer => WaitProducer
    case _ => CheckRun
  }

  /**
    The join at shutdown returns. After Stop the packet thread, until it has exited, is never
    blocked; its steps are the only ones left, and each brings it nearer to its exit.
   */
  lemma ShutdownEnds(s: State, init: State, steps: seq<Step>, step: Step)
    requires Reached(s, init, steps) && !s.mem.run
    ensures !s.sender.Exited? ==> Enabled(s, SenderStep(s.sender))
    ensures Enabled(s, step) ==>
              && step == SenderStep(s.sender) && !Apply(s, step).mem.run
              && StepsToExit(Apply(s, step).sender) == StepsToExit(s.sender) - 1
  {
    Reachable(init, steps);
  }

  // ------------------------------------------------------------------ what is handed over

  /** The frames that a schedule begins, in order, as they are encoded. */
  function Encoded(s: State, steps: seq<Step>): seq<Frame> {
    if steps == [] then []
    else
      var before, last := Execute(s, steps[..|steps| - 1]), steps[|steps| - 1];
      Encoded(s, steps[..|steps| - 1])
      + if last.Begin? && before.Some? then [Frame(before.value.id + 1, last.empty, last.payload)] else []
  }

  /** The same frame, but for the padding of an empty one. */
  predicate SameFrame(f: Frame, g: Frame) {
    f.id == g.id && f.empty == g.empty && (!g.empty ==> f == g)
  }

  ghost predicate Matches(encoded: seq<Frame>, handed: seq<Frame>, p: Producer) {
    && |encoded| == |handed| + (if IsBuilding(p) then 1 else 0)
    && (forall j :: 0 <= j < |handed| ==> SameFrame(handed[j], encoded[j]))
    && (IsBuilding(p) ==> SameFrame(p.frame, encoded[|handed|]))
  }

  lemma StepMatches(s: State, step: Step, encoded: seq<Frame>)
    requires Matches(encoded, s.handed, s.producer) && Enabled(s, step)
    ensures var more := if step.Begin? then [Frame(s.id + 1, step.empty, step.payload)] else [];
            Matches(encoded + more, Apply(s, step).handed, Apply(s, step).producer)
  {}

  lemma {:induction false} RunMatches(s: State, steps: seq<Step>)
    requires Init(s) && Execute(s, steps).Some?
    ensures var t := Execute(s, steps).value; Matches(Encoded(s, steps), t.handed, t.producer)
  {
    if steps != [] {
      var before := steps[..|steps| - 1];
      RunMatches(s, before);
      hide Apply, Enabled, Matches;
      StepMatches(Execute(s, before).value, steps[|steps| - 1], Encoded(s, before));
      assert Encoded(s, before) + [] == Encoded(s, before);
    }
  }

  /**
    What the packet thread takes is what was encoded: the frames taken are the first of the
    frames begun, in order, each with its id and unchanged, but for the padding of empty ones.
   */
  lemma {:induction false} TakenAsEncoded(s: State, init: State, steps: seq<Step>, j: nat)
    requires Reached(s, init, steps) && j < |s.taken|
    ensures j < |Encoded(init, steps)| && s.taken[j].0.Some?
    ensures SameFrame(s.taken[j].0.value, Encoded(init, steps)[j]) && s.taken[j].1 == Encoded(init, steps)[j].id
  {
    RunMatches(init, steps);
    TakenExactlyOnceInOrder(s, init, steps);
  }
}
