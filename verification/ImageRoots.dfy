/**
  Which images the builder can reach. Each image has at most one dependency, so following
  dependencies from an image ends at a root, ends at an empty name, or goes round a cycle;
  in the last two cases the image is listed and never built.
 */
module ImageRoots {
  import opened Wrappers
  import opened ImageClosure
  import opened ImageBuilder
  import opened ImageBuilderProofs
  import opened ImageBuilderTheorems

  /** Following dependencies from `y` comes back to `y`. */
  ghost predicate OnCycle(g: Graph, y: Image) {
    exists d :: BuiltFrom(g.deps, y, d) && LeadsTo(g.deps, d, y)
  }

  /** The FROM line of `y` names an image with the empty name. */
  predicate NamesNothing(g: Graph, y: Image) {
    y in g.deps && g.deps[y].Some? && g.deps[y].value.name == ""
  }

  /** The dependencies of `x` run into a cycle or an empty name. */
  ghost predicate DeadEnd(g: Graph, x: Image) {
    exists y :: LeadsTo(g.deps, x, y) && (OnCycle(g, y) || NamesNothing(g, y))
  }

  // ------------------------------------------------------------ dead ends lead to no root

  lemma ChainTail(g: Graph, c: seq<Image>, i: nat)
    requires Chain(g.deps, c) && i < |c|
    ensures Chain(g.deps, c[i..]) && c[i..][0] == c[i] && c[i..][|c| - i - 1] == c[|c| - 1]
  {
    var e := c[i..];
    forall k | 0 <= k < |e| - 1
      ensures BuiltFrom(g.deps, e[k], e[k + 1])
    {
      assert BuiltFrom(g.deps, c[i + k], c[i + k + 1]);
    }
  }

  /** A chain that is longer than one image goes on from the dependency of its first. */
  lemma LeadsOn(g: Graph, x: Image, d: Image, y: Image)
    requires BuiltFrom(g.deps, x, d) && LeadsTo(g.deps, x, y) && x != y
    ensures LeadsTo(g.deps, d, y)
  {
    var c :| Chain(g.deps, c) && c[0] == x && c[|c| - 1] == y;
    assert BuiltFrom(g.deps, c[0], c[1]);
    assert c[1] == d;
    ChainTail(g, c, 1);
  }

  lemma CycleGoesOn(g: Graph, y: Image, d: Image)
    requires OnCycle(g, y) && BuiltFrom(g.deps, y, d)
    ensures OnCycle(g, d)
  {
    var e :| BuiltFrom(g.deps, y, e) && LeadsTo(g.deps, e, y);
    assert e == d;
    if d != y {
      var c :| Chain(g.deps, c) && c[0] == d && c[|c| - 1] == y;
      assert BuiltFrom(g.deps, c[0], c[1]);
      ChainTail(g, c, 1);
      assert LeadsTo(g.deps, c[1], y);
      ChainExtends(g, c[1], y, d);
    }
  }

  lemma DeadEndGoesOn(g: Graph, x: Image, d: Image)
    requires DeadEnd(g, x) && BuiltFrom(g.deps, x, d)
    ensures DeadEnd(g, d)
  {
    var y :| LeadsTo(g.deps, x, y) && (OnCycle(g, y) || NamesNothing(g, y));
    if x != y {
      LeadsOn(g, x, d, y);
    } else {
      CycleGoesOn(g, x, d);
      LeadsToItself(g, d);
    }
  }

  lemma DeadEndIsNoRoot(g: Graph, x: Image)
    requires DeadEnd(g, x)
    ensures x in g.deps && g.deps[x].Some?
  {
    var y :| LeadsTo(g.deps, x, y) && (OnCycle(g, y) || NamesNothing(g, y));
    var c :| Chain(g.deps, c) && c[0] == x && c[|c| - 1] == y;
    if |c| > 1 {
      assert BuiltFrom(g.deps, c[0], c[1]);
    }
  }

  /** No chain from a dead end ends at a root. */
  lemma {:induction false} NoChainToRoot(g: Graph, c: seq<Image>)
    requires Chain(g.deps, c) && DeadEnd(g, c[0])
    ensures c[|c| - 1] in g.deps && g.deps[c[|c| - 1]].Some?
    decreases |c|
  {
    if |c| == 1 {
      DeadEndIsNoRoot(g, c[0]);
    } else {
      assert BuiltFrom(g.deps, c[0], c[1]);
      DeadEndGoesOn(g, c[0], c[1]);
      ChainTail(g, c, 1);
      NoChainToRoot(g, c[1..]);
    }
  }

  lemma DeadEndMissesRoots(g: Graph, x: Image)
    requires DeadEnd(g, x)
    ensures !LeadsToRoot(g, x)
  {
    RootMembers(g, |g.order|);
    forall r | r in AllRoots(g)
      ensures !LeadsTo(g.deps, x, r)
    {
      forall c | Chain(g.deps, c) && c[0] == x
        ensures c[|c| - 1] != r
      {
        NoChainToRoot(g, c);
      }
    }
  }

  // ------------------------------------------------------------ every other image leads to a root

  lemma RootIsListed(g: Graph, r: Image)
    requires WellFormed(g) && r in g.deps && g.deps[r].None?
    ensures r in AllRoots(g)
  {
    RootMembers(g, |g.order|);
    assert g.order[..|g.order|] == g.order;
  }

  lemma UnvisitedDrops(g: Graph, c: seq<Image>, d: Image)
    requires d in g.order && d !in c
    ensures |Elements(g.order) - Elements(c + [d])| < |Elements(g.order) - Elements(c)|
  {
    var before, after := Elements(g.order) - Elements(c), Elements(g.order) - Elements(c + [d]);
    assert after == before - {d};
  }

  /** The walk `c` has come to an end: a root, an empty name, or an image it has met before. */
  predicate WalkEnds(g: Graph, c: seq<Image>)
    requires c != [] && c[|c| - 1] in g.deps
  {
    var dep := g.deps[c[|c| - 1]];
    dep.None? || dep.value.name == "" || dep.value in c
  }

  lemma EndOfWalk(g: Graph, c: seq<Image>)
    requires WellFormed(g) && Chain(g.deps, c) && c[|c| - 1] in g.deps && WalkEnds(g, c)
    ensures LeadsToRoot(g, c[0]) || DeadEnd(g, c[0])
  {
    var y := c[|c| - 1];
    assert LeadsTo(g.deps, c[0], y);
    if g.deps[y].None? {
      RootIsListed(g, y);
    } else if !NamesNothing(g, y) {
      WalkMeetsItself(g, c, g.deps[y].value);
    }
  }

  lemma WalkMeetsItself(g: Graph, c: seq<Image>, d: Image)
    requires Chain(g.deps, c) && d in c && BuiltFrom(g.deps, c[|c| - 1], d)
    ensures OnCycle(g, c[|c| - 1])
  {
    var i :| 0 <= i < |c| && c[i] == d;
    ChainTail(g, c, i);
  }

  lemma WalkExtends(g: Graph, c: seq<Image>)
    requires WellFormed(g) && Closed(g) && Chain(g.deps, c) && c[|c| - 1] in g.deps && !WalkEnds(g, c)
    ensures var d := g.deps[c[|c| - 1]].value;
            Chain(g.deps, c + [d]) && d in g.deps && d in g.order && d !in c
  {
    var d := g.deps[c[|c| - 1]].value;
    assert BuiltFrom(g.deps, c[|c| - 1], d);
  }

  /** Following dependencies without repetition, as far as it goes. */
  lemma {:induction false} WalkOn(g: Graph, c: seq<Image>)
    requires WellFormed(g) && Closed(g) && Chain(g.deps, c) && c[|c| - 1] in g.deps
    ensures LeadsToRoot(g, c[0]) || DeadEnd(g, c[0])
    decreases |Elements(g.order) - Elements(c)|
  {
    hide WellFormed, Closed, LeadsToRoot, DeadEnd, Elements;
    if WalkEnds(g, c) {
      EndOfWalk(g, c);
    } else {
      WalkExtends(g, c);
      var d := g.deps[c[|c| - 1]].value;
      UnvisitedDrops(g, c, d);
      WalkOn(g, c + [d]);
    }
  }

  // ------------------------------------------------------------ theorems

  /** An image leads to no root exactly when its dependencies meet a cycle or an empty name. */
  lemma {:induction false} RootlessExactly(g: Graph, x: Image)
    requires WellFormed(g) && Closed(g) && x in g.order
    ensures !LeadsToRoot(g, x) <==> DeadEnd(g, x)
  {
    if DeadEnd(g, x) {
      DeadEndMissesRoots(g, x);
    } else {
      assert Chain(g.deps, [x]);
      WalkOn(g, [x]);
    }
  }

  /** After exit 0 a listed image was built exactly when its dependencies meet neither a cycle nor an empty name. */
  lemma {:induction false} BuiltExactly(g: Graph, steps: seq<Step>, s: State, x: Image)
    requires Reached(g, steps, s) && Closed(g) && s.program.exit == Some(0) && x in g.order
    ensures Built(s, x) <==> !DeadEnd(g, x)
  {
    RootlessExactly(g, x);
    ExitStatus(g, steps, s);
    if Built(s, x) {
      var t :| 0 <= t < |s.calls| && s.calls[t].image == x && BuiltBy(s.calls[t]);
      OnlyBelowRoots(g, steps, s, t);
    }
  }

  /** In no run is an image started whose dependencies meet a cycle or an empty name. */
  lemma {:induction false} DeadEndNeverStarted(g: Graph, steps: seq<Step>, s: State, t: nat)
    requires Reached(g, steps, s) && t < |s.calls|
    ensures !DeadEnd(g, s.calls[t].image)
  {
    OnlyBelowRoots(g, steps, s, t);
    if DeadEnd(g, s.calls[t].image) {
      DeadEndMissesRoots(g, s.calls[t].image);
    }
  }

  // ------------------------------------------------------------ witnesses

  /** The script reports success at once for a lone image with the given dependency. */
  lemma LoneImage(x: Image, d: Image) returns (g: Graph, s: State)
    ensures g == Graph([x], map[x := Some(d)])
    ensures Reached(g, [AllBuilt], s) && s.program.exit == Some(0) && !Built(s, x)
  {
    g := Graph([x], map[x := Some(d)]);
    assert Roots(g, 0) == [] && AllRoots(g) == [];
    assert [AllBuilt][..0] == [];
    assert Execute(g, []) == Some(Initial(g));
    s := Apply(g, Initial(g), AllBuilt);
  }

  /** "All images built successfully!" for an image that depends on itself. */
  lemma CycleReportedBuilt() returns (g: Graph, s: State, x: Image)
    ensures WellFormed(g) && Closed(g) && x in g.order && OnCycle(g, x)
    ensures Reached(g, [AllBuilt], s) && s.program.exit == Some(0) && !Built(s, x)
  {
    x := Image("base");
    g, s := LoneImage(x, x);
    LeadsToItself(g, x);
    assert BuiltFrom(g.deps, x, x);
  }

  /** The same for an image whose FROM line has an empty name. */
  lemma EmptyNameReportedBuilt() returns (g: Graph, s: State, x: Image)
    ensures WellFormed(g) && Closed(g) && x in g.order && NamesNothing(g, x)
    ensures Reached(g, [AllBuilt], s) && s.program.exit == Some(0) && !Built(s, x)
  {
    x := Image("base");
    g, s := LoneImage(x, Image(""));
  }
}
