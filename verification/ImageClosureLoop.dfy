/** The dependency closure loop, proved against the chains of dependencies. */
module ImageClosureLoop {
  import opened Wrappers
  import opened ImageClosure

  lemma NeededStep(files: Dockerfiles, requested: seq<Image>, x: Image, d: Image)
    requires Needed(files, requested, x) && BuiltFrom(files, x, d)
    ensures Needed(files, requested, d)
  {
    var r :| r in requested && LeadsTo(files, r, x);
    var c :| Chain(files, c) && c[0] == r && c[|c| - 1] == x;
    var e := c + [d];
    assert Chain(files, e) && e[0] == r && e[|e| - 1] == d;
  }

  lemma NeededStart(files: Dockerfiles, requested: seq<Image>)
    ensures forall x :: x in requested ==> Needed(files, requested, x)
  {
    forall x | x in requested
      ensures Needed(files, requested, x)
    {
      assert Chain(files, [x]) && [x][0] == x;
      assert LeadsTo(files, x, x);
    }
  }

  /** A closed list that holds the start of a chain holds its end. */
  lemma {:induction false} ChainStaysIn(files: Dockerfiles, paths: set<Image>, c: seq<Image>)
    requires Chain(files, c) && c[0] in paths
    requires forall x, d :: x in paths && BuiltFrom(files, x, d) ==> d in paths
    ensures c[|c| - 1] in paths
    decreases |c|
  {
    if |c| > 1 {
      assert BuiltFrom(files, c[0], c[1]);
      var rest := c[1..];
      forall i | 0 <= i < |rest| - 1
        ensures BuiltFrom(files, rest[i], rest[i + 1])
      {
        assert BuiltFrom(files, c[i + 1], c[i + 2]);
      }
      ChainStaysIn(files, paths, rest);
    }
  }

  /** The list holds the requested images and only needed ones. */
  ghost predicate PathsOk(files: Dockerfiles, requested: seq<Image>, paths: seq<Image>) {
    && (forall x :: x in requested ==> x in paths)
    && (forall x :: x in paths ==> Needed(files, requested, x))
  }

  /** The graph holds the images of `done`, as their Dockerfiles say. */
  ghost predicate GraphOf(files: Dockerfiles, done: seq<Image>, g: Graph) {
    && WellFormed(g)
    && (forall x :: x in g.deps <==> x in done)
    && (forall x :: x in g.deps ==> x in files && g.deps[x] == files[x])
  }

  ghost predicate DependenciesIn(files: Dockerfiles, done: seq<Image>, paths: seq<Image>) {
    forall x, d :: x in done && BuiltFrom(files, x, d) ==> d in paths
  }

  /** The state of the loop before position `i`. */
  ghost predicate LoopState(files: Dockerfiles, requested: seq<Image>, paths: seq<Image>, i: nat, g: Graph) {
    && i <= |paths|
    && PathsOk(files, requested, paths)
    && GraphOf(files, paths[..i], g)
    && DependenciesIn(files, paths[..i], paths)
  }

  /** `dependencies[x] = dep` */
  function Entered(g: Graph, x: Image, dep: Option<Image>): Graph {
    Graph(if x in g.deps then g.order else g.order + [x], g.deps[x := dep])
  }

  /** `image_paths.append(dep)`, unless there is none or it is already there */
  function Extended(paths: seq<Image>, dep: Option<Image>): seq<Image> {
    if dep.Some? && dep.value.name != "" && dep.value !in paths then paths + [dep.value] else paths
  }

  lemma EnteredWellFormed(g: Graph, x: Image, dep: Option<Image>)
    requires WellFormed(g)
    ensures WellFormed(Entered(g, x, dep))
  {}

  lemma GraphGrows(files: Dockerfiles, done: seq<Image>, x: Image, g: Graph)
    requires GraphOf(files, done, g) && x in files
    ensures GraphOf(files, done + [x], Entered(g, x, files[x]))
  {
    EnteredWellFormed(g, x, files[x]);
    hide WellFormed;
  }

  lemma PathsGrow(files: Dockerfiles, requested: seq<Image>, paths: seq<Image>, x: Image)
    requires PathsOk(files, requested, paths) && x in paths && x in files
    ensures PathsOk(files, requested, Extended(paths, files[x]))
  {
    var more := Extended(paths, files[x]);
    hide Needed, PathsOk;
    if more != paths {
      NeededIfListed(files, requested, paths, x);
      NeededStep(files, requested, x, files[x].value);
      PathsAppend(files, requested, paths, files[x].value);
    }
  }

  lemma NeededIfListed(files: Dockerfiles, requested: seq<Image>, paths: seq<Image>, x: Image)
    requires PathsOk(files, requested, paths) && x in paths
    ensures Needed(files, requested, x)
  {}

  lemma PathsAppend(files: Dockerfiles, requested: seq<Image>, paths: seq<Image>, d: Image)
    requires PathsOk(files, requested, paths) && Needed(files, requested, d)
    ensures PathsOk(files, requested, paths + [d])
  {
    hide Needed;
  }

  lemma DependenciesGrow(files: Dockerfiles, done: seq<Image>, paths: seq<Image>, x: Image)
    requires DependenciesIn(files, done, paths) && x in files
    ensures DependenciesIn(files, done + [x], Extended(paths, files[x]))
  {}

  lemma ExtendedPrefix(paths: seq<Image>, dep: Option<Image>, i: nat)
    requires i < |paths|
    ensures i + 1 <= |Extended(paths, dep)| && Extended(paths, dep)[..i + 1] == paths[..i] + [paths[i]]
  {}

  lemma LoopStep(files: Dockerfiles, requested: seq<Image>, paths: seq<Image>, i: nat, g: Graph)
    requires LoopState(files, requested, paths, i, g) && i < |paths| && paths[i] in files
    ensures LoopState(files, requested, Extended(paths, files[paths[i]]), i + 1, Entered(g, paths[i], files[paths[i]]))
  {
    var x := paths[i];
    hide GraphOf, PathsOk, DependenciesIn, Entered, Extended;
    ExtendedPrefix(paths, files[x], i);
    GraphGrows(files, paths[..i], x, g);
    PathsGrow(files, requested, paths, x);
    DependenciesGrow(files, paths[..i], paths, x);
  }

  /** The names that have not come up yet: what makes the loop end. */
  function Unseen(files: Dockerfiles, requested: seq<Image>, paths: seq<Image>): nat {
    |Names(files, requested) - set x | x in paths|
  }

  lemma UnseenDrops(files: Dockerfiles, requested: seq<Image>, paths: seq<Image>, x: Image, d: Image)
    requires x in files && files[x] == Some(d) && d !in paths
    ensures Unseen(files, requested, paths + [d]) < Unseen(files, requested, paths)
  {
    var names := Names(files, requested);
    var before := names - set y | y in paths;
    var after := names - set y | y in paths + [d];
    assert d in names;
    assert after == before - {d};
  }

  lemma LoopStart(files: Dockerfiles, requested: seq<Image>)
    ensures LoopState(files, requested, requested, 0, Graph([], map[]))
  {
    NeededStart(files, requested);
    hide Needed;
  }

  lemma NeededAt(files: Dockerfiles, requested: seq<Image>, paths: seq<Image>, i: nat, g: Graph)
    requires LoopState(files, requested, paths, i, g) && i < |paths|
    ensures Needed(files, requested, paths[i])
  {
    NeededIfListed(files, requested, paths, paths[i]);
  }

  /**
    The loop ends. It fails exactly when a needed image has no Dockerfile; otherwise the
    graph holds exactly the images needed for the requested ones, each with the dependency
    its Dockerfile names, and is closed under dependency.
   */
  method CloseDependencies(files: Dockerfiles, requested: seq<Image>) returns (r: Option<Graph>)
    ensures r.None? <==> exists x :: Needed(files, requested, x) && x !in files
    ensures r.Some? ==> WellFormed(r.value) && Closed(r.value)
    ensures r.Some? ==> forall x :: x in r.value.order <==> Needed(files, requested, x)
    ensures r.Some? ==> forall x :: x in r.value.order ==> x in files && r.value.deps[x] == files[x]
  {
    var paths, g := requested, Graph([], map[]);
    var i := 0;
    LoopStart(files, requested);
    hide Needed, WellFormed, Closed, BuiltFrom, Unseen, LoopState, Entered;
    while i < |paths|
      invariant i <= |paths|
      invariant LoopState(files, requested, paths, i, g)
      decreases Unseen(files, requested, paths), |paths| - i
    {
      var x := paths[i];
      if x !in files {
        NeededAt(files, requested, paths, i, g);
        return None;
      }
      var dep := files[x];
      LoopStep(files, requested, paths, i, g);
      g := Entered(g, x, dep);
      if dep.Some? && dep.value.name != "" && dep.value !in paths {
        UnseenDrops(files, requested, paths, x, dep.value);
        paths := paths + [dep.value];
      }
      i := i + 1;
    }
    LoopDone(files, requested, paths, g);
    return Some(g);
  }

  lemma LoopDone(files: Dockerfiles, requested: seq<Image>, paths: seq<Image>, g: Graph)
    requires LoopState(files, requested, paths, |paths|, g)
    ensures Closed(g) && WellFormed(g)
    ensures forall y :: y in g.order <==> Needed(files, requested, y)
    ensures forall x :: x in g.order ==> x in files && g.deps[x] == files[x]
  {
    assert paths[..|paths|] == paths;
    DependenciesClosed(files, paths, g);
    hide WellFormed, Closed, DependenciesIn;
    forall y | Needed(files, requested, y)
      ensures y in paths
    {
      NeededIn(files, requested, paths, y);
    }
    hide Needed;
    InOrder(files, paths, g);
  }

  lemma InOrder(files: Dockerfiles, done: seq<Image>, g: Graph)
    requires GraphOf(files, done, g)
    ensures WellFormed(g)
    ensures forall x :: x in g.order <==> x in done
    ensures forall x :: x in g.order ==> x in files && g.deps[x] == files[x]
  {}

  lemma DependenciesClosed(files: Dockerfiles, paths: seq<Image>, g: Graph)
    requires GraphOf(files, paths, g) && DependenciesIn(files, paths, paths)
    ensures Closed(g)
  {
    forall x, d | BuiltFrom(g.deps, x, d)
      ensures d in g.deps
    {
      assert BuiltFrom(files, x, d);
    }
  }

  lemma NeededIn(files: Dockerfiles, requested: seq<Image>, paths: seq<Image>, y: Image)
    requires PathsOk(files, requested, paths) && DependenciesIn(files, paths, paths) && Needed(files, requested, y)
    ensures y in paths
  {
    var x :| x in requested && LeadsTo(files, x, y);
    var c :| Chain(files, c) && c[0] == x && c[|c| - 1] == y;
    ChainStaysIn(files, (set z | z in paths), c);
  }
}
