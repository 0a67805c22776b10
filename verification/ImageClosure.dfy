/**
  The dependency closure of mandelboxes/scripts/build_mandelbox_image.py: starting from the
  requested images, every image an image is built from joins the list. `files` gives, for
  each image with a Dockerfile, the name in its FROM line if there is one; an image
  without a Dockerfile ends the script with an exception. The empty name is "falsy" and
  counts as no name at all when the list is extended.
 */
module ImageClosure {
  import opened Wrappers

  /** An image path. */
  datatype Image = Image(name: string)
  type Dockerfiles = map<Image, Option<Image>>

  /** `x` is built from `d`, as the script sees it. */
  predicate BuiltFrom(files: Dockerfiles, x: Image, d: Image) {
    x in files && files[x] == Some(d) && d.name != ""
  }

  /** `dependencies` with its insertion order. */
  datatype Graph = Graph(order: seq<Image>, deps: Dockerfiles)

  ghost predicate NoRepeats(s: seq<Image>) {
    forall i, j :: 0 <= i < j < |s| ==> s[i] != s[j]
  }

  ghost predicate WellFormed(g: Graph) {
    && NoRepeats(g.order)
    && (forall x :: x in g.deps <==> x in g.order)
  }

  ghost predicate Closed(g: Graph) {
    forall x, d :: BuiltFrom(g.deps, x, d) ==> d in g.deps
  }

  /** A chain of dependencies. */
  ghost predicate Chain(files: Dockerfiles, c: seq<Image>) {
    && c != []
    && forall i :: 0 <= i < |c| - 1 ==> BuiltFrom(files, c[i], c[i + 1])
  }

  /** `y` is `x` or something `x` is built from, directly or not. */
  ghost predicate LeadsTo(files: Dockerfiles, x: Image, y: Image) {
    exists c :: Chain(files, c) && c[0] == x && c[|c| - 1] == y
  }

  ghost predicate Needed(files: Dockerfiles, requested: seq<Image>, y: Image) {
    exists x :: x in requested && LeadsTo(files, x, y)
  }

  /** Every name the loop can meet. */
  function Names(files: Dockerfiles, requested: seq<Image>): set<Image> {
    (set x | x in requested) + files.Keys + (set x | x in files && files[x].Some? :: files[x].value)
  }
}
