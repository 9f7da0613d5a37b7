/** Rooted paths: a root number and a '/'-separated sub path (source/core/paths/paths.c). */
module Paths {

  datatype Option<+T> = None | Some(value: T)

  const NONE: nat := 0  // the root number of absolute paths

  datatype Path = Path(root: nat, sub: string)

  predicate IsEmpty(p: Path) {
    p.root == NONE && p.sub == ""
  }

  /** Root-relative sub paths never begin with a separator. */
  predicate Anchored(p: Path) {
    p.root != NONE ==> p.sub == "" || p.sub[0] != '/'
  }

  /** The index of the last '/', or -1. */
  function LastSep(s: string): (k: int)
    ensures -1 <= k < |s|
    ensures k >= 0 ==> s[k] == '/'
    ensures forall i :: k < i < |s| ==> s[i] != '/'
  {
    if s == "" then -1
    else if s[|s| - 1] == '/' then |s| - 1
    else LastSep(s[..|s| - 1])
  }

  function Parent(p: Path): Path {
    var sep := LastSep(p.sub);
    Path(p.root, p.sub[..if sep < 0 then 0 else if sep == 0 then 1 else sep])
  }

  /** One step of the climb towards the root; nothing once the root is reached. */
  function Up(p: Path): (r: Option<Path>)
    ensures r.Some? ==> |r.value.sub| < |p.sub| && r.value.root == p.root
  {
    var parent := Parent(p);
    if parent == p || IsEmpty(parent) then None else Some(parent)
  }

  /** Everything the climb from `p` visits, nearest first. */
  function Ancestors(p: Path): seq<Path>
    decreases |p.sub|
  {
    match Up(p)
    case None => []
    case Some(q) => [q] + Ancestors(q)
  }

  /** `path` is `base` or lies below it. */
  predicate Within(base: Path, path: Path) {
    && base.root == path.root
    && if base.sub == "" then base.root != NONE
       else base.sub <= path.sub && (|path.sub| == |base.sub| || path.sub[|base.sub|] == '/')
  }

  /** The climb stays inside the root it started in. */
  lemma {:induction false} AncestorsKeepRoot(p: Path, d: Path)
    requires d in Ancestors(p)
    ensures d.root == p.root && |d.sub| < |p.sub|
    decreases |p.sub|
  {
    var q := Up(p).value;
    if d != q {
      AncestorsKeepRoot(q, d);
    }
  }

  /** Cutting at the last separator loses exactly one level of containment. */
  lemma WithinParent(d: Path, p: Path)
    requires p.root != NONE && Anchored(p) && p.sub != ""
    ensures Within(d, p) && d != p <==> Within(d, Parent(p))
    ensures Anchored(Parent(p)) && Parent(p) != p && !IsEmpty(Parent(p))
  {
    var q := Parent(p);
    assert q.sub <= p.sub;
    if Within(d, p) && d != p && d.sub != "" {
      assert p.sub[|d.sub|] == '/';
      assert |d.sub| <= LastSep(p.sub);
      assert d.sub == p.sub[..|d.sub|] == q.sub[..|d.sub|];
    }
    if Within(d, q) && d.sub != "" {
      assert |q.sub| == LastSep(p.sub);
      assert p.sub[|q.sub|] == '/';
      assert d.sub == q.sub[..|d.sub|] == p.sub[..|d.sub|];
    }
  }

  /** The climb visits exactly the directories that strictly contain the path. */
  lemma {:induction false} AncestorsAreContainers(p: Path, d: Path)
    requires p.root != NONE && Anchored(p)
    ensures d in Ancestors(p) <==> Within(d, p) && d != p
    decreases |p.sub|
  {
    if p.sub == "" {
      assert Parent(p) == p;
    } else {
      WithinParent(d, p);
      AncestorsAreContainers(Parent(p), d);
    }
  }

  /** `dirs` have been climbed, `dir` and what is above it are still to come. */
  predicate Climbing(path: Path, dirs: seq<Path>, dir: Option<Path>) {
    dirs + (if dir.Some? then [dir.value] + Ancestors(dir.value) else []) == Ancestors(path)
  }

  lemma ClimbStep(path: Path, dirs: seq<Path>, dir: Path)
    requires Climbing(path, dirs, Some(dir))
    ensures dir in Ancestors(path) && Climbing(path, dirs + [dir], Up(dir))
  {
    assert Ancestors(path)[|dirs|] == dir;
    assert (dirs + [dir]) + Ancestors(dir) == dirs + ([dir] + Ancestors(dir));
  }
}
