/**
  build_image_path of mandelboxes/scripts/build_mandelbox_image.py: a depth-first build of
  the image graph with one thread per image below a root, under every interleaving. A
  step is one entry of the shared `dependencies` looked at, one thread started or joined,
  or one docker build ended, with any exit status.
 */
module ImageBuilder {
  import opened Wrappers
  import opened ImageClosure

  /** Where a call of build_image_path is. `kids` are the calls it has started. */
  datatype Phase =
    | Building
    | Scanning(at: nat, found: seq<Image>)
    | Starting(layer: seq<Image>, kids: seq<nat>)
    | Joining(kids: seq<nat>, joined: nat, status: int)
    | Finished(kids: seq<nat>, ret: int)
    | Failed(ret: int)                       // the docker build itself failed

  /** A call, the image it builds and the call that started it (None for a root). */
  datatype Call = Call(image: Image, parent: Option<nat>, phase: Phase)

  /** The main program: roots done, the root under way, and how it ended. */
  datatype Program = Program(finished: nat, current: Option<nat>, exit: Option<int>)

  datatype State = State(deps: Dockerfiles, calls: seq<Call>, program: Program)

  datatype Step =
    | LaunchRoot
    | RootReturns
    | AllBuilt
    | BuildEnds(call: nat, status: int)
    | ScanEntry(call: nat)
    | StartChild(call: nat)
    | JoinChild(call: nat)

  predicate Returned(c: Call) {
    c.phase.Finished? || c.phase.Failed?
  }

  /** The docker build of this call succeeded. */
  predicate BuiltBy(c: Call) {
    !c.phase.Building? && !c.phase.Failed?
  }

  function Kids(p: Phase): seq<nat> {
    if p.Starting? || p.Joining? || p.Finished? then p.kids else []
  }

  /** The images with no dependency, in the order of the dictionary. */
  function Roots(g: Graph, n: nat): seq<Image>
    requires n <= |g.order|
  {
    if n == 0 then []
    else
      var x := g.order[n - 1];
      Roots(g, n - 1) + if x in g.deps && g.deps[x] == None then [x] else []
  }

  function AllRoots(g: Graph): seq<Image> {
    Roots(g, |g.order|)
  }

  /** The images built from `d` among the first `n`. */
  function Layer(g: Graph, n: nat, d: Image): seq<Image>
    requires n <= |g.order|
  {
    if n == 0 then []
    else Layer(g, n - 1, d) + if BuiltFrom(g.deps, g.order[n - 1], d) then [g.order[n - 1]] else []
  }

  // ------------------------------------------------------------ the steps

  predicate Live(s: State, t: nat) {
    t < |s.calls| && s.program.exit.None?
  }

  predicate Enabled(g: Graph, s: State, step: Step) {
    match step
    case LaunchRoot => s.program.exit.None? && s.program.current.None? && s.program.finished < |AllRoots(g)|
    case RootReturns =>
      && s.program.exit.None? && s.program.current.Some?
      && s.program.current.value < |s.calls| && Returned(s.calls[s.program.current.value])
    case AllBuilt => s.program.exit.None? && s.program.current.None? && s.program.finished == |AllRoots(g)|
    case BuildEnds(t, _) => Live(s, t) && s.calls[t].phase.Building?
    case ScanEntry(t) => Live(s, t) && s.calls[t].phase.Scanning?
    case StartChild(t) => Live(s, t) && s.calls[t].phase.Starting?
    case JoinChild(t) =>
      && Live(s, t) && s.calls[t].phase.Joining?
      && var p := s.calls[t].phase;
         p.joined < |p.kids| ==> p.kids[p.joined] < |s.calls| && Returned(s.calls[p.kids[p.joined]])
  }

  function WithPhase(calls: seq<Call>, t: nat, phase: Phase): seq<Call>
    requires t < |calls|
  {
    calls[t := calls[t].(phase := phase)]
  }

  function BuildEnded(s: State, t: nat, status: int): State
    requires t < |s.calls|
  {
    s.(calls := WithPhase(s.calls, t, if status != 0 then Failed(status) else Scanning(0, [])))
  }

  /** One round of the loop over `dependencies.items()`, or its end. */
  function Scanned(g: Graph, s: State, t: nat): State
    requires t < |s.calls| && s.calls[t].phase.Scanning?
  {
    var p := s.calls[t].phase;
    if p.at >= |g.order| then s.(calls := WithPhase(s.calls, t, Starting(p.found, [])))
    else
      var x := g.order[p.at];
      if BuiltFrom(s.deps, x, s.calls[t].image)
      then s.(deps := s.deps[x := None], calls := WithPhase(s.calls, t, Scanning(p.at + 1, p.found + [x])))
      else s.(calls := WithPhase(s.calls, t, Scanning(p.at + 1, p.found)))
  }

  function ChildStarted(s: State, t: nat): State
    requires t < |s.calls| && s.calls[t].phase.Starting?
  {
    var p := s.calls[t].phase;
    if |p.kids| >= |p.layer| then s.(calls := WithPhase(s.calls, t, Joining(p.kids, 0, 0)))
    else
      var child := Call(p.layer[|p.kids|], Some(t), Building);
      s.(calls := WithPhase(s.calls, t, Starting(p.layer, p.kids + [|s.calls|])) + [child])
  }

  function ChildJoined(s: State, t: nat): State
    requires t < |s.calls| && s.calls[t].phase.Joining?
    requires var p := s.calls[t].phase;
             p.joined < |p.kids| ==> p.kids[p.joined] < |s.calls| && Returned(s.calls[p.kids[p.joined]])
  {
    var p := s.calls[t].phase;
    if p.joined >= |p.kids| then s.(calls := WithPhase(s.calls, t, Finished(p.kids, p.status)))
    else
      var ret := s.calls[p.kids[p.joined]].phase.ret;
      s.(calls := WithPhase(s.calls, t, Joining(p.kids, p.joined + 1, if p.status == 0 then ret else p.status)))
  }

  function RootLaunched(g: Graph, s: State): State
    requires s.program.finished < |AllRoots(g)|
  {
    State(s.deps, s.calls + [Call(AllRoots(g)[s.program.finished], None, Building)],
          s.program.(current := Some(|s.calls|)))
  }

  function RootReturned(s: State): State
    requires s.program.current.Some? && s.program.current.value < |s.calls|
    requires Returned(s.calls[s.program.current.value])
  {
    var ret := s.calls[s.program.current.value].phase.ret;
    if ret != 0 then s.(program := s.program.(exit := Some(ret)))
    else s.(program := Program(s.program.finished + 1, None, None))
  }

  function Apply(g: Graph, s: State, step: Step): State
    requires Enabled(g, s, step)
  {
    match step
    case LaunchRoot => RootLaunched(g, s)
    case RootReturns => RootReturned(s)
    case AllBuilt => s.(program := s.program.(exit := Some(0)))
    case BuildEnds(t, status) => BuildEnded(s, t, status)
    case ScanEntry(t) => Scanned(g, s, t)
    case StartChild(t) => ChildStarted(s, t)
    case JoinChild(t) => ChildJoined(s, t)
  }

  function Initial(g: Graph): State {
    State(g.deps, [], Program(0, None, None))
  }

  function Execute(g: Graph, steps: seq<Step>): Option<State> {
    if steps == [] then Some(Initial(g))
    else
      var before := Execute(g, steps[..|steps| - 1]);
      if before.Some? && Enabled(g, before.value, steps[|steps| - 1])
      then Some(Apply(g, before.value, steps[|steps| - 1]))
      else None
  }
}
