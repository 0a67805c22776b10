/** What the image builder guarantees, under every interleaving of its threads. */
module ImageBuilderTheorems {
  import opened Wrappers
  import opened ImageClosure
  import opened ImageBuilder
  import opened ImageBuilderProofs

  ghost predicate Reached(g: Graph, steps: seq<Step>, s: State) {
    WellFormed(g) && Execute(g, steps) == Some(s)
  }

  /** The docker build of `x` has succeeded. */
  ghost predicate Built(s: State, x: Image) {
    exists t :: 0 <= t < |s.calls| && s.calls[t].image == x && BuiltBy(s.calls[t])
  }

  /** Everything that is built from `d`, `d` included, has been built. */
  ghost predicate SubtreeBuilt(g: Graph, s: State, d: Image) {
    forall x :: LeadsTo(g.deps, x, d) ==> Built(s, x)
  }

  ghost predicate LeadsToRoot(g: Graph, x: Image) {
    exists r :: r in AllRoots(g) && LeadsTo(g.deps, x, r)
  }

  // ------------------------------------------------------------ safety

  /** No image is built twice. */
  lemma BuiltAtMostOnce(g: Graph, steps: seq<Step>, s: State, t: nat, u: nat)
    requires Reached(g, steps, s) && t < |s.calls| && u < |s.calls| && s.calls[t].image == s.calls[u].image
    ensures t == u
  {
    Reachable(g, steps);
  }

  /** A build starts only after the build of what it depends on has succeeded. */
  lemma {:induction false} DependencyFirst(g: Graph, steps: seq<Step>, s: State, t: nat)
    requires Reached(g, steps, s) && t < |s.calls|
    ensures var x := s.calls[t].image;
            && x in g.deps
            && (g.deps[x].Some? ==> g.deps[x].value.name != "" && Built(s, g.deps[x].value))
  {
    Reachable(g, steps);
    assert Descent(g, s.calls, Launched(s.program), t);
    RootMembers(g, |g.order|);
    if s.calls[t].parent.Some? {
      var p := s.calls[t].parent.value;
      assert BuiltBy(s.calls[p]);
    }
  }

  lemma ChainExtends(g: Graph, x: Image, y: Image, d: Image)
    requires LeadsTo(g.deps, x, y) && BuiltFrom(g.deps, y, d)
    ensures LeadsTo(g.deps, x, d)
  {
    var c :| Chain(g.deps, c) && c[0] == x && c[|c| - 1] == y;
    var e := c + [d];
    assert Chain(g.deps, e) && e[0] == x && e[|e| - 1] == d;
  }

  lemma LeadsToItself(g: Graph, x: Image)
    ensures LeadsTo(g.deps, x, x)
  {
    assert Chain(g.deps, [x]) && [x][0] == x;
  }

  /** Only images that lead to a root are ever built. */
  lemma {:induction false} OnlyBelowRoots(g: Graph, steps: seq<Step>, s: State, t: nat)
    requires Reached(g, steps, s) && t < |s.calls|
    ensures LeadsToRoot(g, s.calls[t].image)
  {
    Reachable(g, steps);
    BelowRoots(g, s, t);
  }

  lemma {:induction false} BelowRoots(g: Graph, s: State, t: nat)
    requires Inv(g, s) && t < |s.calls|
    ensures LeadsToRoot(g, s.calls[t].image)
  {
    assert Descent(g, s.calls, Launched(s.program), t);
    hide Inv, LeadsTo;
    var x := s.calls[t].image;
    if s.calls[t].parent.None? {
      LeadsToItself(g, x);
    } else {
      var p := s.calls[t].parent.value;
      BelowRoots(g, s, p);
      var r :| r in AllRoots(g) && LeadsTo(g.deps, s.calls[p].image, r);
      LeadsToItself(g, x);
      ChainExtends(g, x, x, s.calls[p].image);
      LeadsToTransitive(g, x, s.calls[p].image, r);
    }
  }

  lemma LeadsToTransitive(g: Graph, x: Image, y: Image, z: Image)
    requires LeadsTo(g.deps, x, y) && LeadsTo(g.deps, y, z)
    ensures LeadsTo(g.deps, x, z)
  {
    var c :| Chain(g.deps, c) && c[0] == x && c[|c| - 1] == y;
    var e :| Chain(g.deps, e) && e[0] == y && e[|e| - 1] == z;
    var f := c + e[1..];
    forall i | 0 <= i < |f| - 1
      ensures BuiltFrom(g.deps, f[i], f[i + 1])
    {
      if i < |c| - 1 {
        assert BuiltFrom(g.deps, c[i], c[i + 1]);
      } else {
        var k := i - (|c| - 1);
        assert f[i] == e[k] && f[i + 1] == e[k + 1];
        assert BuiltFrom(g.deps, e[k], e[k + 1]);
      }
    }
    assert Chain(g.deps, f) && f[0] == x && f[|f| - 1] == z;
  }

  // ------------------------------------------------------------ status

  /** The call that a finished call has started for an image built from its own. */
  lemma KidFor(g: Graph, s: State, t: nat, y: Image) returns (k: nat)
    requires WellFormed(g) && PhasesOk(g, s.calls) && t < |s.calls| && s.calls[t].phase.Finished?
    requires BuiltFrom(g.deps, y, s.calls[t].image)
    ensures t < k < |s.calls| && s.calls[k].image == y && Returned(s.calls[k])
    ensures Clean(s.calls[t]) ==> Clean(s.calls[k])
  {
    assert PhaseOk(g, s.calls, t);
    var all := Layer(g, |g.order|, s.calls[t].image);
    LayerMembers(g, |g.order|, s.calls[t].image);
    assert g.order[..|g.order|] == g.order;
    assert y in all;
    var m :| 0 <= m < |all| && all[m] == y;
    k := s.calls[t].phase.kids[m];
  }

  /** The whole chain above a clean call is built. */
  lemma {:induction false} CleanChain(g: Graph, s: State, t: nat, c: seq<Image>)
    requires WellFormed(g) && PhasesOk(g, s.calls) && t < |s.calls| && Clean(s.calls[t])
    requires Chain(g.deps, c) && c[|c| - 1] == s.calls[t].image
    ensures Built(s, c[0])
    decreases |c|
  {
    if |c| == 1 {
      assert BuiltBy(s.calls[t]);
    } else {
      var n := |c| - 1;
      assert BuiltFrom(g.deps, c[n - 1], c[n]);
      var k := KidFor(g, s, t, c[n - 1]);
      CleanChain(g, s, k, c[..n]);
    }
  }

  lemma {:induction false} CleanMeansBuilt(g: Graph, s: State, t: nat)
    requires WellFormed(g) && PhasesOk(g, s.calls) && t < |s.calls| && Clean(s.calls[t])
    ensures SubtreeBuilt(g, s, s.calls[t].image)
  {
    forall x | LeadsTo(g.deps, x, s.calls[t].image)
      ensures Built(s, x)
    {
      var c :| Chain(g.deps, c) && c[0] == x && c[|c| - 1] == s.calls[t].image;
      CleanChain(g, s, t, c);
    }
  }

  /** A call that returned something else has an image above it that was not built. */
  lemma {:induction false} UncleanMeansMissing(g: Graph, s: State, t: nat) returns (x: Image)
    requires WellFormed(g) && Distinct(s.calls) && PhasesOk(g, s.calls)
    requires t < |s.calls| && Returned(s.calls[t]) && !Clean(s.calls[t])
    ensures LeadsTo(g.deps, x, s.calls[t].image) && !Built(s, x)
    decreases |s.calls| - t
  {
    var d := s.calls[t].image;
    assert PhaseOk(g, s.calls, t);
    if s.calls[t].phase.Failed? {
      LeadsToItself(g, d);
      x := d;
    } else {
      var kids := s.calls[t].phase.kids;
      var all := Layer(g, |g.order|, d);
      var m :| 0 <= m < |kids| && !Clean(s.calls[kids[m]]);
      LayerMembers(g, |g.order|, d);
      assert all[m] in all;
      x := UncleanMeansMissing(g, s, kids[m]);
      ChainExtends(g, x, all[m], d);
    }
  }

  /** A call, of a root or any other image, returns 0 exactly when its whole subtree was built. */
  lemma {:induction false} StatusIsSubtree(g: Graph, steps: seq<Step>, s: State, t: nat)
    requires Reached(g, steps, s) && t < |s.calls| && Returned(s.calls[t])
    ensures s.calls[t].phase.ret == 0 <==> SubtreeBuilt(g, s, s.calls[t].image)
  {
    Reachable(g, steps);
    assert PhaseOk(g, s.calls, t);
    if Clean(s.calls[t]) {
      CleanMeansBuilt(g, s, t);
    } else {
      var x := UncleanMeansMissing(g, s, t);
    }
  }

  /** The script exits with 0 exactly when every image that leads to a root was built. */
  lemma {:induction false} ExitStatus(g: Graph, steps: seq<Step>, s: State)
    requires Reached(g, steps, s) && s.program.exit.Some?
    ensures s.program.exit == Some(0) <==> forall x :: LeadsToRoot(g, x) ==> Built(s, x)
  {
    Reachable(g, steps);
    var roots := AllRoots(g);
    if s.program.exit == Some(0) {
      forall x | LeadsToRoot(g, x)
        ensures Built(s, x)
      {
        var r :| r in roots && LeadsTo(g.deps, x, r);
        RootBuilt(g, s, r);
      }
    } else {
      var t := s.program.current.value;
      var x := UncleanMeansMissing(g, s, t);
      assert roots[s.program.finished] in roots;
      assert LeadsToRoot(g, x);
    }
  }

  lemma RootBuilt(g: Graph, s: State, r: Image)
    requires WellFormed(g) && PhasesOk(g, s.calls) && ProgramOk(g, s.program, s.calls)
    requires s.program.exit == Some(0) && r in AllRoots(g)
    ensures SubtreeBuilt(g, s, r)
  {
    var i :| 0 <= i < |AllRoots(g)| && AllRoots(g)[i] == r;
    assert RootDone(s.calls, r);
    var t :| 0 <= t < |s.calls| && s.calls[t].image == r && Clean(s.calls[t]);
    CleanMeansBuilt(g, s, t);
  }

  /** "All images built" is true of the whole list exactly when every image leads to a root. */
  lemma {:induction false} AllBuiltExactly(g: Graph, steps: seq<Step>, s: State)
    requires Reached(g, steps, s) && s.program.exit == Some(0)
    ensures (forall x :: x in g.order ==> Built(s, x)) <==> (forall x :: x in g.order ==> LeadsToRoot(g, x))
  {
    ExitStatus(g, steps, s);
    forall x | Built(s, x)
      ensures LeadsToRoot(g, x)
    {
      var t :| 0 <= t < |s.calls| && s.calls[t].image == x && BuiltBy(s.calls[t]);
      OnlyBelowRoots(g, steps, s, t);
    }
  }

  /** After a failed root the later ones are never started. */
  lemma {:induction false} FailureStops(g: Graph, steps: seq<Step>, s: State, i: nat, t: nat)
    requires Reached(g, steps, s) && s.program.exit.Some? && s.program.exit.value != 0
    requires s.program.finished < i < |AllRoots(g)| && t < |s.calls|
    ensures s.calls[t].image != AllRoots(g)[i]
  {
    Reachable(g, steps);
    RootIsNew(g, s, i);
  }

  // ------------------------------------------------------------ progress

  /** Until the script has exited, some step is possible: no join waits for ever. */
  lemma {:induction false} NeverStuck(g: Graph, steps: seq<Step>, s: State) returns (step: Step)
    requires Reached(g, steps, s) && s.program.exit.None?
    ensures Enabled(g, s, step)
  {
    Reachable(g, steps);
    var p := s.program;
    if p.current.None? {
      step := if p.finished < |AllRoots(g)| then LaunchRoot else AllBuilt;
    } else if Returned(s.calls[p.current.value]) {
      step := RootReturns;
    } else {
      step := SomeCallMoves(g, s, p.current.value);
    }
  }

  lemma {:induction false} SomeCallMoves(g: Graph, s: State, t: nat) returns (step: Step)
    requires PhasesOk(g, s.calls) && s.program.exit.None? && t < |s.calls| && !Returned(s.calls[t])
    ensures Enabled(g, s, step)
    decreases |s.calls| - t
  {
    assert PhaseOk(g, s.calls, t);
    match s.calls[t].phase
    case Building => step := BuildEnds(t, 0);
    case Scanning(_, _) => step := ScanEntry(t);
    case Starting(_, _) => step := StartChild(t);
    case Joining(kids, joined, _) =>
      if joined < |kids| && !Returned(s.calls[kids[joined]]) {
        step := SomeCallMoves(g, s, kids[joined]);
      } else {
        step := JoinChild(t);
      }
  }

  /** The steps a call has taken, at least. */
  function Work(n: nat, p: Phase): nat {
    match p
    case Building => 0
    case Failed(_) => 1
    case Scanning(at, _) => 1 + at
    case Starting(_, kids) => n + 2 + |kids|
    case Joining(_, joined, _) => 2 * n + 3 + joined
    case Finished(_, _) => 3 * n + 4
  }

  function Spent(n: nat, calls: seq<Call>): nat {
    if calls == [] then 0 else Spent(n, calls[..|calls| - 1]) + Work(n, calls[|calls| - 1].phase)
  }

  function ProgramWork(p: Program): nat {
    2 * p.finished + (if p.current.Some? then 1 else 0) + (if p.exit.Some? then 1 else 0)
  }

  lemma {:induction false} SpentUpdate(n: nat, calls: seq<Call>, t: nat, phase: Phase)
    requires t < |calls|
    ensures Spent(n, WithPhase(calls, t, phase)) == Spent(n, calls) - Work(n, calls[t].phase) + Work(n, phase)
    decreases |calls|
  {
    var m := |calls| - 1;
    if t < m {
      SpentUpdate(n, calls[..m], t, phase);
      assert WithPhase(calls, t, phase)[..m] == WithPhase(calls[..m], t, phase);
    } else {
      assert WithPhase(calls, t, phase)[..m] == calls[..m];
    }
  }

  lemma SpentAppend(n: nat, calls: seq<Call>, c: Call)
    ensures Spent(n, calls + [c]) == Spent(n, calls) + Work(n, c.phase)
  {
    assert (calls + [c])[..|calls|] == calls;
  }

  lemma {:induction false} LayerLength(g: Graph, n: nat, d: Image)
    requires n <= |g.order|
    ensures |Layer(g, n, d)| <= n
  {
    if n > 0 {
      LayerLength(g, n - 1, d);
    }
  }

  lemma {:induction false} RootsLength(g: Graph, n: nat)
    requires n <= |g.order|
    ensures |Roots(g, n)| <= n
  {
    if n > 0 {
      RootsLength(g, n - 1);
    }
  }

  lemma WorkBound(g: Graph, s: State, t: nat)
    requires t < |s.calls| && PhaseOk(g, s.calls, t)
    ensures Work(|g.order|, s.calls[t].phase) <= 3 * |g.order| + 4
    ensures s.calls[t].phase.Joining? ==> s.calls[t].phase.joined <= |g.order|
    ensures s.calls[t].phase.Starting? ==> |s.calls[t].phase.kids| <= |g.order|
  {
    LayerLength(g, |g.order|, s.calls[t].image);
  }

  lemma PhaseSpends(n: nat, calls: seq<Call>, t: nat, phase: Phase)
    requires t < |calls| && Work(n, phase) > Work(n, calls[t].phase)
    ensures Spent(n, WithPhase(calls, t, phase)) > Spent(n, calls)
  {
    SpentUpdate(n, calls, t, phase);
  }

  /** Each step of a call adds to its work. */
  lemma CallStepSpends(g: Graph, s: State, step: Step)
    requires PhasesOk(g, s.calls) && Enabled(g, s, step)
    requires step.BuildEnds? || step.ScanEntry? || step.StartChild? || step.JoinChild?
    ensures Spent(|g.order|, Apply(g, s, step).calls) > Spent(|g.order|, s.calls)
    ensures Apply(g, s, step).program == s.program
  {
    var n, t := |g.order|, step.call;
    assert PhaseOk(g, s.calls, t);
    WorkBound(g, s, t);
    var phase := Apply(g, s, step).calls[t].phase;
    var p := s.calls[t].phase;
    assert p.Scanning? ==> p.at <= n;
    hide Spent, PhasesOk, PhaseOk;
    PhaseSpends(n, s.calls, t, phase);
    if step.StartChild? && |p.kids| < |p.layer| {
      hide Work;
      SpentAppend(n, WithPhase(s.calls, t, phase), Call(p.layer[|p.kids|], Some(t), Building));
    }
  }

  lemma StepSpends(g: Graph, s: State, step: Step)
    requires PhasesOk(g, s.calls) && Enabled(g, s, step)
    ensures var u := Apply(g, s, step);
            Spent(|g.order|, u.calls) + ProgramWork(u.program) > Spent(|g.order|, s.calls) + ProgramWork(s.program)
  {
    if step.LaunchRoot? {
      SpentAppend(|g.order|, s.calls, Call(AllRoots(g)[s.program.finished], None, Building));
    } else if !step.RootReturns? && !step.AllBuilt? {
      CallStepSpends(g, s, step);
    }
    hide Spent, PhasesOk;
  }

  lemma {:induction false} RunSpends(g: Graph, steps: seq<Step>)
    requires WellFormed(g) && Execute(g, steps).Some?
    ensures var s := Execute(g, steps).value;
            |steps| <= Spent(|g.order|, s.calls) + ProgramWork(s.program)
  {
    if steps != [] {
      var before := steps[..|steps| - 1];
      RunSpends(g, before);
      Reachable(g, before);
      hide Apply, Enabled, Spent, PhasesOk;
      StepSpends(g, Execute(g, before).value, steps[|steps| - 1]);
    }
  }

  lemma {:induction false} SpentBound(n: nat, calls: seq<Call>, cap: nat)
    requires forall t :: 0 <= t < |calls| ==> Work(n, calls[t].phase) <= cap
    ensures Spent(n, calls) <= |calls| * cap
    decreases |calls|
  {
    if calls != [] {
      var m := |calls| - 1;
      SpentBound(n, calls[..m], cap);
      hide Work;
      assert |calls| * cap == m * cap + cap;
    }
  }

  function Elements(s: seq<Image>): set<Image> {
    set x | x in s
  }

  lemma {:induction false} ElementsBound(s: seq<Image>)
    ensures |Elements(s)| <= |s|
  {
    if s != [] {
      var n := |s| - 1;
      ElementsBound(s[..n]);
      assert Elements(s) == Elements(s[..n]) + {s[n]};
    }
  }

  function Images(calls: seq<Call>): set<Image> {
    set t | 0 <= t < |calls| :: calls[t].image
  }

  lemma {:induction false} ImagesCount(calls: seq<Call>)
    requires Distinct(calls)
    ensures |Images(calls)| == |calls|
    decreases |calls|
  {
    if calls != [] {
      var n := |calls| - 1;
      ImagesCount(calls[..n]);
      assert Images(calls) == Images(calls[..n]) + {calls[n].image};
    }
  }

  lemma SubsetCount(a: set<Image>, b: set<Image>)
    requires a <= b
    ensures |a| <= |b|
  {
    assert b == a + (b - a);
  }

  lemma CallsBound(g: Graph, steps: seq<Step>, s: State)
    requires Reached(g, steps, s)
    ensures |s.calls| <= |g.order|
  {
    Reachable(g, steps);
    forall t | 0 <= t < |s.calls|
      ensures s.calls[t].image in Elements(g.order)
    {
      DependencyFirst(g, steps, s, t);
    }
    ImagesCount(s.calls);
    ElementsBound(g.order);
    SubsetCount(Images(s.calls), Elements(g.order));
  }

  lemma RunBound(g: Graph, steps: seq<Step>, s: State, cap: nat)
    requires Reached(g, steps, s) && cap == 3 * |g.order| + 4
    ensures |steps| <= |s.calls| * cap + 2 * |g.order| + 1
  {
    RunSpends(g, steps);
    Reachable(g, steps);
    RootsLength(g, |g.order|);
    assert ProgramWork(s.program) <= 2 * |g.order| + 1;
    forall t | 0 <= t < |s.calls|
      ensures Work(|g.order|, s.calls[t].phase) <= cap
    {
      WorkBound(g, s, t);
    }
    hide Inv, Spent, Work;
    SpentBound(|g.order|, s.calls, cap);
  }

  lemma MulBound(a: nat, b: nat, c: nat)
    requires a <= b
    ensures a * c <= b * c
  {}

  /** Every run ends: a list of n images takes at most n(3n + 4) + 2n + 1 steps. */
  lemma {:induction false} RunsEnd(g: Graph, steps: seq<Step>, s: State)
    requires Reached(g, steps, s)
    ensures var n := |g.order|; |steps| <= n * (3 * n + 4) + 2 * n + 1
  {
    var n := |g.order|;
    CallsBound(g, steps, s);
    RunBound(g, steps, s, 3 * n + 4);
    hide Reached;
    MulBound(|s.calls|, n, 3 * n + 4);
  }
}
