/** What every step of the image builder keeps. */
module ImageBuilderProofs {
  import opened Wrappers
  import opened ImageClosure
  import opened ImageBuilder

  // ------------------------------------------------------------ the invariant

  ghost predicate Distinct(calls: seq<Call>) {
    forall t, u :: 0 <= t < u < |calls| ==> calls[t].image != calls[u].image
  }

  predicate Clean(c: Call) {
    c.phase.Finished? && c.phase.ret == 0
  }

  /** `kids` are the calls for the first images of `layer`. */
  ghost predicate KidsOk(calls: seq<Call>, t: nat, layer: seq<Image>, kids: seq<nat>) {
    && |kids| <= |layer|
    && forall m :: 0 <= m < |kids| ==>
         t < kids[m] < |calls| && calls[kids[m]].image == layer[m] && calls[kids[m]].parent == Some(t)
  }

  /** The first `joined` kids have returned, and the status says whether all were clean. */
  ghost predicate JoinedOk(calls: seq<Call>, kids: seq<nat>, joined: nat, status: int) {
    && joined <= |kids|
    && (forall m :: 0 <= m < joined ==> kids[m] < |calls| && Returned(calls[kids[m]]))
    && (status == 0 <==> forall m :: 0 <= m < joined ==> Clean(calls[kids[m]]))
  }

  ghost predicate PhaseOk(g: Graph, calls: seq<Call>, t: nat)
    requires t < |calls|
  {
    var all := Layer(g, |g.order|, calls[t].image);
    match calls[t].phase
    case Building => true
    case Scanning(at, found) => at <= |g.order| && found == Layer(g, at, calls[t].image)
    case Starting(layer, kids) => layer == all && KidsOk(calls, t, all, kids)
    case Joining(kids, joined, status) =>
      |kids| == |all| && KidsOk(calls, t, all, kids) && JoinedOk(calls, kids, joined, status)
    case Finished(kids, ret) =>
      |kids| == |all| && KidsOk(calls, t, all, kids) && JoinedOk(calls, kids, |kids|, ret)
    case Failed(ret) => ret != 0
  }

  ghost predicate PhasesOk(g: Graph, calls: seq<Call>) {
    forall t :: 0 <= t < |calls| ==> PhaseOk(g, calls, t)
  }

  /** A call is for one of the roots launched so far, or was started by the call for its dependency. */
  ghost predicate Descent(g: Graph, calls: seq<Call>, launched: nat, u: nat)
    requires u < |calls|
  {
    match calls[u].parent
    case None => calls[u].image in AllRoots(g)[..if launched <= |AllRoots(g)| then launched else 0]
    case Some(p) => p < u && BuiltFrom(g.deps, calls[u].image, calls[p].image) && u in Kids(calls[p].phase)
  }

  ghost predicate Descents(g: Graph, calls: seq<Call>, launched: nat) {
    forall u :: 0 <= u < |calls| ==> Descent(g, calls, launched, u)
  }

  /** The scan of this call has gone past entry `j`. */
  predicate Passed(p: Phase, j: nat) {
    p.Starting? || p.Joining? || p.Finished? || (p.Scanning? && p.at > j)
  }

  ghost predicate Cleared(g: Graph, calls: seq<Call>, j: nat)
    requires j < |g.order|
  {
    exists t :: 0 <= t < |calls| && BuiltFrom(g.deps, g.order[j], calls[t].image) && Passed(calls[t].phase, j)
  }

  /** An entry of the dictionary is as it was, until the call for its dependency scans it. */
  ghost predicate EntriesOk(g: Graph, deps: Dockerfiles, calls: seq<Call>) {
    && deps.Keys == g.deps.Keys
    && forall j :: 0 <= j < |g.order| && g.order[j] in deps ==>
         deps[g.order[j]] == g.deps[g.order[j]] || (deps[g.order[j]] == None && Cleared(g, calls, j))
  }

  ghost predicate RootDone(calls: seq<Call>, x: Image) {
    exists t :: 0 <= t < |calls| && calls[t].image == x && Clean(calls[t])
  }

  function Launched(p: Program): nat {
    p.finished + if p.current.Some? then 1 else 0
  }

  ghost predicate ProgramOk(g: Graph, p: Program, calls: seq<Call>) {
    var roots := AllRoots(g);
    && Launched(p) <= |roots|
    && (forall i :: 0 <= i < p.finished ==> RootDone(calls, roots[i]))
    && (p.current.Some? ==> p.current.value < |calls| && calls[p.current.value].image == roots[p.finished])
    && (p.exit == Some(0) ==> p.current.None? && p.finished == |roots|)
    && (p.exit.Some? && p.exit.value != 0 ==>
          p.current.Some? && Returned(calls[p.current.value]) && !Clean(calls[p.current.value]))
  }

  ghost predicate Inv(g: Graph, s: State) {
    && Distinct(s.calls)
    && PhasesOk(g, s.calls)
    && Descents(g, s.calls, Launched(s.program))
    && EntriesOk(g, s.deps, s.calls)
    && ProgramOk(g, s.program, s.calls)
  }

  // ------------------------------------------------------------ layers and roots

  lemma {:induction false} LayerMembers(g: Graph, n: nat, d: Image)
    requires n <= |g.order|
    ensures forall x :: x in Layer(g, n, d) <==> x in g.order[..n] && BuiltFrom(g.deps, x, d)
  {
    if n > 0 {
      LayerMembers(g, n - 1, d);
      assert g.order[..n] == g.order[..n - 1] + [g.order[n - 1]];
    }
  }

  lemma {:induction false} LayerNoRepeats(g: Graph, n: nat, d: Image)
    requires n <= |g.order| && NoRepeats(g.order)
    ensures NoRepeats(Layer(g, n, d))
  {
    if n > 0 {
      LayerNoRepeats(g, n - 1, d);
      LayerMembers(g, n - 1, d);
      assert g.order[n - 1] !in g.order[..n - 1];
    }
  }

  lemma {:induction false} RootMembers(g: Graph, n: nat)
    requires n <= |g.order|
    ensures forall x :: x in Roots(g, n) <==> x in g.order[..n] && x in g.deps && g.deps[x] == None
  {
    if n > 0 {
      RootMembers(g, n - 1);
      assert g.order[..n] == g.order[..n - 1] + [g.order[n - 1]];
    }
  }

  lemma {:induction false} RootsNoRepeats(g: Graph, n: nat)
    requires n <= |g.order| && NoRepeats(g.order)
    ensures NoRepeats(Roots(g, n))
  {
    if n > 0 {
      RootsNoRepeats(g, n - 1);
      RootMembers(g, n - 1);
      assert g.order[n - 1] !in g.order[..n - 1];
    }
  }

  // ------------------------------------------------------------ what a step leaves alone

  /** Images and parents stay, kids are only added, scans go on, and returned calls are final. */
  ghost predicate Evolved(a: Call, b: Call) {
    && a.image == b.image && a.parent == b.parent
    && (Returned(a) ==> a == b)
    && Kids(a.phase) <= Kids(b.phase)
    && (forall j: nat :: Passed(a.phase, j) ==> Passed(b.phase, j))
  }

  ghost predicate Evolves(a: seq<Call>, b: seq<Call>) {
    |a| <= |b| && forall u :: 0 <= u < |a| ==> Evolved(a[u], b[u])
  }

  lemma PhaseKept(g: Graph, a: seq<Call>, b: seq<Call>, u: nat)
    requires Evolves(a, b) && u < |a| && a[u].phase == b[u].phase && PhaseOk(g, a, u)
    ensures PhaseOk(g, b, u)
  {
    hide Layer;
    var kids := Kids(a[u].phase);
    assert forall m :: 0 <= m < |kids| && kids[m] < |a| ==> Evolved(a[kids[m]], b[kids[m]]);
    assert Evolved(a[u], b[u]);
  }

  lemma DescentKept(g: Graph, a: seq<Call>, b: seq<Call>, launched: nat, more: nat, u: nat)
    requires Evolves(a, b) && u < |a| && Descent(g, a, launched, u) && launched <= more <= |AllRoots(g)|
    ensures Descent(g, b, more, u)
  {
    hide AllRoots, BuiltFrom;
    assert Evolved(a[u], b[u]);
    if a[u].parent.Some? {
      var p := a[u].parent.value;
      assert Evolved(a[p], b[p]);
    }
  }

  lemma EntriesKept(g: Graph, deps: Dockerfiles, a: seq<Call>, b: seq<Call>)
    requires Evolves(a, b) && EntriesOk(g, deps, a)
    ensures EntriesOk(g, deps, b)
  {
    hide BuiltFrom;
    forall j | 0 <= j < |g.order| && Cleared(g, a, j)
      ensures Cleared(g, b, j)
    {
      var t :| 0 <= t < |a| && BuiltFrom(g.deps, g.order[j], a[t].image) && Passed(a[t].phase, j);
      assert Evolved(a[t], b[t]);
    }
  }

  lemma ProgramKept(g: Graph, p: Program, a: seq<Call>, b: seq<Call>)
    requires Evolves(a, b) && ProgramOk(g, p, a)
    ensures ProgramOk(g, p, b)
  {
    hide AllRoots;
    forall x | RootDone(a, x)
      ensures RootDone(b, x)
    {
      var t :| 0 <= t < |a| && a[t].image == x && Clean(a[t]);
      assert Evolved(a[t], b[t]);
    }
    if p.current.Some? {
      assert Evolved(a[p.current.value], b[p.current.value]);
    }
  }

  /** A step of one call: it is enough that this call evolves into a good phase. */
  lemma OneCallKeeps(g: Graph, s: State, t: nat, phase: Phase)
    requires Inv(g, s) && t < |s.calls| && Evolved(s.calls[t], s.calls[t].(phase := phase))
    requires PhaseOk(g, WithPhase(s.calls, t, phase), t)
    ensures Inv(g, s.(calls := WithPhase(s.calls, t, phase)))
    ensures Evolves(s.calls, WithPhase(s.calls, t, phase))
  {
    var a, b := s.calls, WithPhase(s.calls, t, phase);
    assert Evolves(a, b);
    hide PhaseOk, Descent, EntriesOk, ProgramOk, Evolves;
    EntriesKept(g, s.deps, a, b);
    ProgramKept(g, s.program, a, b);
    assert Launched(s.program) <= |AllRoots(g)| by { LaunchedBound(g, s.program, a); }
    forall u | 0 <= u < |b|
      ensures PhaseOk(g, b, u) && Descent(g, b, Launched(s.program), u)
    {
      if u != t {
        PhaseKept(g, a, b, u);
      }
      DescentKept(g, a, b, Launched(s.program), Launched(s.program), u);
    }
  }

  lemma LaunchedBound(g: Graph, p: Program, calls: seq<Call>)
    requires ProgramOk(g, p, calls)
    ensures Launched(p) <= |AllRoots(g)|
  {}

  // ------------------------------------------------------------ docker builds and joins

  lemma BuildEndedKeeps(g: Graph, s: State, t: nat, status: int)
    requires Inv(g, s) && t < |s.calls| && s.calls[t].phase.Building?
    ensures Inv(g, BuildEnded(s, t, status))
  {
    hide Inv;
    OneCallKeeps(g, s, t, if status != 0 then Failed(status) else Scanning(0, []));
  }

  lemma JoinedMore(calls: seq<Call>, kids: seq<nat>, joined: nat, status: int)
    requires JoinedOk(calls, kids, joined, status) && joined < |kids|
    requires kids[joined] < |calls| && Returned(calls[kids[joined]])
    requires calls[kids[joined]].phase.Failed? ==> calls[kids[joined]].phase.ret != 0
    ensures JoinedOk(calls, kids, joined + 1, if status == 0 then calls[kids[joined]].phase.ret else status)
  {
    assert Clean(calls[kids[joined]]) <==> calls[kids[joined]].phase.ret == 0;
  }

  /** What a phase says about other calls is not changed by a change of this call's own phase. */
  lemma KidsFramed(calls: seq<Call>, t: nat, phase: Phase, layer: seq<Image>, kids: seq<nat>)
    requires t < |calls| && KidsOk(calls, t, layer, kids)
    ensures KidsOk(WithPhase(calls, t, phase), t, layer, kids)
  {}

  lemma JoinedFramed(
    calls: seq<Call>, t: nat, phase: Phase, layer: seq<Image>, kids: seq<nat>, joined: nat, status: int)
    requires t < |calls| && KidsOk(calls, t, layer, kids) && JoinedOk(calls, kids, joined, status)
    ensures JoinedOk(WithPhase(calls, t, phase), kids, joined, status)
  {
    assert forall m :: 0 <= m < joined ==> WithPhase(calls, t, phase)[kids[m]] == calls[kids[m]];
  }

  /** A change of a joining call's phase, given what it says about the kids. */
  lemma JoiningKeeps(g: Graph, s: State, t: nat, joined: nat, status: int, phase: Phase)
    requires Inv(g, s) && t < |s.calls| && s.calls[t].phase.Joining?
    requires JoinedOk(s.calls, s.calls[t].phase.kids, joined, status)
    requires var kids := s.calls[t].phase.kids;
             phase == Joining(kids, joined, status) || (phase == Finished(kids, status) && joined == |kids|)
    ensures Inv(g, s.(calls := WithPhase(s.calls, t, phase)))
  {
    var all := Layer(g, |g.order|, s.calls[t].image);
    assert PhaseOk(g, s.calls, t);
    hide Inv, Layer, JoinedOk;
    KidsFramed(s.calls, t, phase, all, phase.kids);
    JoinedFramed(s.calls, t, phase, all, phase.kids, joined, status);
    hide KidsOk;
    OneCallKeeps(g, s, t, phase);
  }

  lemma ChildJoinedKeeps(g: Graph, s: State, t: nat)
    requires Inv(g, s) && Enabled(g, s, JoinChild(t))
    ensures Inv(g, ChildJoined(s, t))
  {
    var p := s.calls[t].phase;
    assert PhaseOk(g, s.calls, t);
    if p.joined >= |p.kids| {
      hide Inv;
      JoiningKeeps(g, s, t, p.joined, p.status, Finished(p.kids, p.status));
    } else {
      var status := if p.status == 0 then s.calls[p.kids[p.joined]].phase.ret else p.status;
      assert PhaseOk(g, s.calls, p.kids[p.joined]);
      hide Inv, Layer;
      JoinedMore(s.calls, p.kids, p.joined, p.status);
      hide JoinedOk, KidsOk;
      JoiningKeeps(g, s, t, p.joined + 1, status, Joining(p.kids, p.joined + 1, status));
    }
  }

  // ------------------------------------------------------------ the scan

  /** The entry a call is about to look at still says what it said at the start. */
  lemma EntryIntact(g: Graph, s: State, t: nat, j: nat)
    requires WellFormed(g) && Distinct(s.calls) && EntriesOk(g, s.deps, s.calls)
    requires t < |s.calls| && j < |g.order| && !Passed(s.calls[t].phase, j)
    ensures BuiltFrom(s.deps, g.order[j], s.calls[t].image) <==> BuiltFrom(g.deps, g.order[j], s.calls[t].image)
  {
    var x := g.order[j];
    assert x in g.deps;
    forall u | 0 <= u < |s.calls| && BuiltFrom(g.deps, x, s.calls[u].image) && BuiltFrom(g.deps, x, s.calls[t].image)
      ensures u == t
    {}
  }

  lemma EntryCleared(g: Graph, s: State, t: nat, j: nat)
    requires WellFormed(g) && Inv(g, s) && t < |s.calls| && j < |g.order|
    requires BuiltFrom(g.deps, g.order[j], s.calls[t].image) && Passed(s.calls[t].phase, j)
    ensures Inv(g, s.(deps := s.deps[g.order[j] := None]))
  {
    assert Cleared(g, s.calls, j);
    assert g.order[j] in g.deps;
    hide Cleared, BuiltFrom, Distinct, PhasesOk, Descents, ProgramOk;
  }

  lemma ScannedKeeps(g: Graph, s: State, t: nat)
    requires WellFormed(g) && Inv(g, s) && t < |s.calls| && s.calls[t].phase.Scanning?
    ensures Inv(g, Scanned(g, s, t))
  {
    var p := s.calls[t].phase;
    assert PhaseOk(g, s.calls, t);
    if p.at >= |g.order| {
      hide Inv;
      OneCallKeeps(g, s, t, Starting(p.found, []));
    } else {
      var x := g.order[p.at];
      EntryIntact(g, s, t, p.at);
      var found := BuiltFrom(s.deps, x, s.calls[t].image);
      var next := Scanning(p.at + 1, if found then p.found + [x] else p.found);
      assert PhaseOk(g, WithPhase(s.calls, t, next), t);
      hide Inv, WellFormed, PhaseOk;
      OneCallKeeps(g, s, t, next);
      if found {
        EntryCleared(g, s.(calls := WithPhase(s.calls, t, next)), t, p.at);
      }
    }
  }

  // ------------------------------------------------------------ new calls

  /** A call for an image that has none yet may be added. */
  lemma NewCallKeeps(g: Graph, s: State, c: Call, launched: nat)
    requires Distinct(s.calls) && PhasesOk(g, s.calls) && Descents(g, s.calls, Launched(s.program))
    requires EntriesOk(g, s.deps, s.calls) && ProgramOk(g, s.program, s.calls)
    requires c.phase.Building? && forall u :: 0 <= u < |s.calls| ==> s.calls[u].image != c.image
    requires Launched(s.program) <= launched <= |AllRoots(g)|
    requires Descent(g, s.calls + [c], launched, |s.calls|)
    ensures Distinct(s.calls + [c]) && PhasesOk(g, s.calls + [c]) && Descents(g, s.calls + [c], launched)
    ensures EntriesOk(g, s.deps, s.calls + [c]) && ProgramOk(g, s.program, s.calls + [c])
  {
    var b := s.calls + [c];
    assert Evolves(s.calls, b);
    hide EntriesOk, ProgramOk, Evolves, Descent;
    EntriesKept(g, s.deps, s.calls, b);
    ProgramKept(g, s.program, s.calls, b);
    forall u | 0 <= u < |b|
      ensures PhaseOk(g, b, u) && Descent(g, b, launched, u)
    {
      if u < |s.calls| {
        hide PhaseOk;
        PhaseKept(g, s.calls, b, u);
        DescentKept(g, s.calls, b, Launched(s.program), launched, u);
      }
    }
  }

  /** No call exists yet for a root that has not been launched. */
  lemma RootIsNew(g: Graph, s: State, i: nat)
    requires WellFormed(g) && Descents(g, s.calls, Launched(s.program)) && Launched(s.program) <= i < |AllRoots(g)|
    ensures forall u :: 0 <= u < |s.calls| ==> s.calls[u].image != AllRoots(g)[i]
  {
    var roots := AllRoots(g);
    RootMembers(g, |g.order|);
    RootsNoRepeats(g, |g.order|);
    assert roots[i] in roots;
    forall u | 0 <= u < |s.calls|
      ensures s.calls[u].image != roots[i]
    {
      assert Descent(g, s.calls, Launched(s.program), u);
    }
  }

  lemma RootLaunchedKeeps(g: Graph, s: State)
    requires WellFormed(g) && Inv(g, s) && Enabled(g, s, LaunchRoot)
    ensures Inv(g, RootLaunched(g, s))
  {
    var roots, i := AllRoots(g), s.program.finished;
    var c := Call(roots[i], None, Building);
    RootIsNew(g, s, i);
    assert roots[i] in roots[..i + 1];
    assert Descent(g, s.calls + [c], i + 1, |s.calls|);
    hide AllRoots;
    NewCallKeeps(g, s, c, i + 1);
    hide EntriesOk, Descents, PhasesOk, Distinct;
  }

  /** No call exists yet for the next child. */
  lemma ChildIsNew(g: Graph, s: State, t: nat)
    requires WellFormed(g) && Inv(g, s) && t < |s.calls| && s.calls[t].phase.Starting?
    requires |s.calls[t].phase.kids| < |s.calls[t].phase.layer|
    ensures var p := s.calls[t].phase;
            BuiltFrom(g.deps, p.layer[|p.kids|], s.calls[t].image)
            && forall u :: 0 <= u < |s.calls| ==> s.calls[u].image != p.layer[|p.kids|]
  {
    var p := s.calls[t].phase;
    var child := p.layer[|p.kids|];
    assert PhaseOk(g, s.calls, t);
    LayerMembers(g, |g.order|, s.calls[t].image);
    LayerNoRepeats(g, |g.order|, s.calls[t].image);
    assert child in p.layer;
    RootMembers(g, |g.order|);
    forall u | 0 <= u < |s.calls|
      ensures s.calls[u].image != child
    {
      assert Descent(g, s.calls, Launched(s.program), u);
      hide Layer, AllRoots;
      if s.calls[u].image == child {
        ChildTwice(g, s, t, u);
      }
    }
  }

  lemma ChildTwice(g: Graph, s: State, t: nat, u: nat)
    requires t < |s.calls| && s.calls[t].phase.Starting? && Distinct(s.calls)
    requires NoRepeats(s.calls[t].phase.layer) && KidsOk(s.calls, t, s.calls[t].phase.layer, s.calls[t].phase.kids)
    requires |s.calls[t].phase.kids| < |s.calls[t].phase.layer|
    requires u < |s.calls| && s.calls[u].image == s.calls[t].phase.layer[|s.calls[t].phase.kids|]
    requires BuiltFrom(g.deps, s.calls[u].image, s.calls[t].image)
    requires s.calls[u].parent.Some? ==>
      var q := s.calls[u].parent.value;
      q < u && BuiltFrom(g.deps, s.calls[u].image, s.calls[q].image) && u in Kids(s.calls[q].phase)
    ensures s.calls[u].parent == None
  {}

  lemma ChildStartedKeeps(g: Graph, s: State, t: nat)
    requires WellFormed(g) && Inv(g, s) && t < |s.calls| && s.calls[t].phase.Starting?
    ensures Inv(g, ChildStarted(s, t))
  {
    var p := s.calls[t].phase;
    assert PhaseOk(g, s.calls, t);
    if |p.kids| >= |p.layer| {
      KidsFramed(s.calls, t, Joining(p.kids, 0, 0), p.layer, p.kids);
      hide Inv, Layer;
      OneCallKeeps(g, s, t, Joining(p.kids, 0, 0));
    } else {
      ChildIsNew(g, s, t);
      var child := Call(p.layer[|p.kids|], Some(t), Building);
      ChildAdded(g, s, t, child);
    }
  }

  lemma ChildOk(g: Graph, s: State, t: nat, child: Call, launched: nat)
    requires t < |s.calls| && s.calls[t].phase.Starting? && PhaseOk(g, s.calls, t)
    requires |s.calls[t].phase.kids| < |s.calls[t].phase.layer|
    requires child == Call(s.calls[t].phase.layer[|s.calls[t].phase.kids|], Some(t), Building)
    requires BuiltFrom(g.deps, child.image, s.calls[t].image)
    ensures var b := ChildStarted(s, t).calls;
            && Evolves(s.calls, b)
            && PhaseOk(g, b, t) && PhaseOk(g, b, |s.calls|)
            && Descent(g, b, launched, |s.calls|)
  {
    var kids := s.calls[t].phase.kids;
    var b := ChildStarted(s, t).calls;
    assert (kids + [|s.calls|])[|kids|] == |s.calls|;
    assert Kids(b[t].phase) == kids + [|s.calls|];
    hide Layer, BuiltFrom;
  }

  lemma ChildAdded(g: Graph, s: State, t: nat, child: Call)
    requires Inv(g, s) && t < |s.calls| && s.calls[t].phase.Starting?
    requires |s.calls[t].phase.kids| < |s.calls[t].phase.layer|
    requires child == Call(s.calls[t].phase.layer[|s.calls[t].phase.kids|], Some(t), Building)
    requires BuiltFrom(g.deps, child.image, s.calls[t].image)
    requires forall u :: 0 <= u < |s.calls| ==> s.calls[u].image != child.image
    ensures Inv(g, ChildStarted(s, t))
  {
    var b := ChildStarted(s, t).calls;
    assert PhaseOk(g, s.calls, t);
    assert Distinct(b);
    hide Distinct;
    ChildOk(g, s, t, child, Launched(s.program));
    hide EntriesOk, ProgramOk, Evolves, Descent, PhaseOk;
    LaunchedBound(g, s.program, s.calls);
    EntriesKept(g, s.deps, s.calls, b);
    ProgramKept(g, s.program, s.calls, b);
    forall u | 0 <= u < |s.calls|
      ensures PhaseOk(g, b, u) && Descent(g, b, Launched(s.program), u)
    {
      if u != t {
        PhaseKept(g, s.calls, b, u);
      }
      DescentKept(g, s.calls, b, Launched(s.program), Launched(s.program), u);
    }
  }

  // ------------------------------------------------------------ the main program

  lemma RootReturnedKeeps(g: Graph, s: State)
    requires Inv(g, s) && Enabled(g, s, RootReturns)
    ensures Inv(g, RootReturned(s))
  {
    var t := s.program.current.value;
    assert PhaseOk(g, s.calls, t);
    assert Clean(s.calls[t]) <==> s.calls[t].phase.ret == 0;
    hide EntriesOk, Distinct, PhasesOk, AllRoots;
  }

  lemma StepKeeps(g: Graph, s: State, step: Step)
    requires WellFormed(g) && Inv(g, s) && Enabled(g, s, step)
    ensures Inv(g, Apply(g, s, step))
  {
    hide Inv, WellFormed;
    match step
    case LaunchRoot => RootLaunchedKeeps(g, s);
    case RootReturns => RootReturnedKeeps(g, s);
    case AllBuilt => AllBuiltKeeps(g, s);
    case BuildEnds(t, status) => BuildEndedKeeps(g, s, t, status);
    case ScanEntry(t) => ScannedKeeps(g, s, t);
    case StartChild(t) => ChildStartedKeeps(g, s, t);
    case JoinChild(t) => ChildJoinedKeeps(g, s, t);
  }

  lemma AllBuiltKeeps(g: Graph, s: State)
    requires Inv(g, s) && Enabled(g, s, AllBuilt)
    ensures Inv(g, Apply(g, s, AllBuilt))
  {
    hide EntriesOk, Distinct, PhasesOk;
  }

  lemma {:induction false} Reachable(g: Graph, steps: seq<Step>)
    requires WellFormed(g) && Execute(g, steps).Some?
    ensures Inv(g, Execute(g, steps).value)
  {
    if steps != [] {
      Reachable(g, steps[..|steps| - 1]);
      hide Inv, WellFormed, Apply, Enabled;
      StepKeeps(g, Execute(g, steps[..|steps| - 1]).value, steps[|steps| - 1]);
    }
  }
}
