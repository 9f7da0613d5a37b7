/** The index from observed paths to the actions that write there
    (source/core/dag/run.c:858-905, 956-986). */
module Targets {
  import opened Paths
  import opened Dag
  import opened Observations

  datatype Target = Target(producer: nat, kind: ArtifactKind)

  datatype Index = Index(byPath: map<Path, Target>, below: map<Path, seq<nat>>)

  /** Artifact `t` is an output of `a` that an observation at `o` could see. This is the plain
      definition the index is measured against. */
  predicate Overlaps(g: Graph, t: nat, o: Obs) {
    && g.Located(t)
    && var artifact := g.artifacts[t];
       || artifact.path == o.path
       || (artifact.kind.Tree? && Within(artifact.path, o.path))
       || (o.kind.ObsEnumeration? && Within(o.path, artifact.path))
  }

  /** The plain scan of all artifacts for one observation. */
  ghost predicate SeenBy(g: Graph, o: Obs, p: nat) {
    exists t :: 0 <= t < |g.artifacts| && Overlaps(g, t, o) && g.artifacts[t].producer == Some(p)
  }

  /** Some unpinned observation in `rows` overlaps an output of `p`. */
  ghost predicate Sees(g: Graph, rows: seq<Obs>, p: nat) {
    exists i :: 0 <= i < |rows| && rows[i].path.root !in g.pinned && SeenBy(g, rows[i], p)
  }

  // ---------------------------------------------------------------- building the index

  /** The list filed under a directory; nothing filed is the empty list. */
  function At(below: map<Path, seq<nat>>, d: Path): seq<nat> {
    if d in below then below[d] else []
  }

  /** Output `t` is written by `p` somewhere below `d`. */
  ghost predicate WrittenBelow(g: Graph, t: nat, p: nat, d: Path) {
    g.Located(t) && g.artifacts[t].producer == Some(p) && d in Ancestors(g.artifacts[t].path)
  }

  ghost predicate IndexesPaths(g: Graph, byPath: map<Path, Target>, n: nat)
    requires n <= |g.artifacts|
  {
    && (forall t :: 0 <= t < n && g.Located(t) ==>
         && g.artifacts[t].path in byPath
         && byPath[g.artifacts[t].path] == Target(g.artifacts[t].producer.value, g.artifacts[t].kind))
    && (forall p :: p in byPath ==> exists t :: 0 <= t < n && g.Located(t) && g.artifacts[t].path == p)
  }

  ghost predicate IndexesBelow(g: Graph, below: map<Path, seq<nat>>, n: nat) {
    forall d, p :: p in At(below, d) <==> exists t :: 0 <= t < n && WrittenBelow(g, t, p, d)
  }

  ghost predicate Indexes(g: Graph, ix: Index) {
    IndexesPaths(g, ix.byPath, |g.artifacts|) && IndexesBelow(g, ix.below, |g.artifacts|)
  }

  function Filed(below: map<Path, seq<nat>>, dirs: seq<Path>, producer: nat, d: Path): seq<nat> {
    if d in dirs then At(below, d) + [producer] else At(below, d)
  }

  method PushBelow(below: map<Path, seq<nat>>, dir: Path, producer: nat) returns (result: map<Path, seq<nat>>)
    ensures forall d :: At(result, d) == Filed(below, [dir], producer, d)
  {
    result := below;
    if dir !in result {
      result := result[dir := []];
    }
    result := result[dir := result[dir] + [producer]];
  }

  lemma FiledGrows(start: map<Path, seq<nat>>, was: map<Path, seq<nat>>, now: map<Path, seq<nat>>,
                   done: seq<Path>, dir: Path, producer: nat)
    requires dir !in done
    requires forall d :: At(was, d) == Filed(start, done, producer, d)
    requires forall d :: At(now, d) == Filed(was, [dir], producer, d)
    ensures forall d :: At(now, d) == Filed(start, done + [dir], producer, d)
  {
    forall d ensures At(now, d) == Filed(start, done + [dir], producer, d) {
      assert At(was, d) == Filed(start, done, producer, d);
      assert d in done + [dir] <==> d in done || d == dir;
    }
  }

  /** Files one output under every directory above it. */
  method FileBelow(path: Path, producer: nat, below: map<Path, seq<nat>>) returns (result: map<Path, seq<nat>>)
    ensures forall d :: At(result, d) == Filed(below, Ancestors(path), producer, d)
  {
    result := below;
    var dir := Up(path);
    ghost var done: seq<Path> := [];
    while dir.Some?
      invariant Climbing(path, done, dir)
      invariant forall d :: d in done && dir.Some? ==> |dir.value.sub| < |d.sub|
      invariant forall d :: At(result, d) == Filed(below, done, producer, d)
      decreases if dir.Some? then |dir.value.sub| + 1 else 0
    {
      assert dir.value !in done;
      ClimbStep(path, done, dir.value);
      ghost var was := result;
      result := PushBelow(result, dir.value, producer);
      FiledGrows(below, was, result, done, dir.value, producer);
      done := done + [dir.value];
      dir := Up(dir.value);
    }
  }

  /** `targets_init`. */
  method BuildIndex(g: Graph) returns (ix: Index)
    requires PathsSound(g) && PathsUnique(g)
    ensures Indexes(g, ix)
  {
    var byPath: map<Path, Target>, below: map<Path, seq<nat>> := map[], map[];
    for it := 0 to |g.artifacts|
      invariant IndexesPaths(g, byPath, it) && IndexesBelow(g, below, it)
    {
      var artifact := g.artifacts[it];
      ghost var before := below;
      if artifact.producer.Some? && !IsEmpty(artifact.path) {
        assert artifact.path.root !in g.pinned;
        assert artifact.path !in byPath;
        byPath := byPath[artifact.path := Target(artifact.producer.value, artifact.kind)];
        assert g.Located(it);
        below := FileBelow(artifact.path, artifact.producer.value, below);
      }
      StepBelow(g, before, below, it);
    }
    ix := Index(byPath, below);
  }

  lemma StepBelow(g: Graph, before: map<Path, seq<nat>>, below: map<Path, seq<nat>>, it: nat)
    requires it < |g.artifacts| && IndexesBelow(g, before, it)
    requires if g.Located(it)
             then forall d ::
               At(below, d) == Filed(before, Ancestors(g.artifacts[it].path), g.artifacts[it].producer.value, d)
             else below == before
    ensures IndexesBelow(g, below, it + 1)
  {
    forall d, p ensures p in At(below, d) <==> exists t :: 0 <= t < it + 1 && WrittenBelow(g, t, p, d) {
      assert p in At(before, d) <==> exists t :: 0 <= t < it && WrittenBelow(g, t, p, d);
      if g.Located(it) {
        assert At(below, d) == Filed(before, Ancestors(g.artifacts[it].path), g.artifacts[it].producer.value, d);
      }
      assert p in At(below, d) <==> p in At(before, d) || WrittenBelow(g, it, p, d);
    }
  }

  // ---------------------------------------------------------------- walking the index

  /** The TREE targets met on the climb from an observed path. */
  function TreesAbove(ix: Index, dirs: seq<Path>): (r: seq<nat>)
  {
    if dirs == [] then []
    else
      var rest := TreesAbove(ix, dirs[..|dirs| - 1]);
      var dir := dirs[|dirs| - 1];
      if dir in ix.byPath && ix.byPath[dir].kind.Tree? then rest + [ix.byPath[dir].producer] else rest
  }

  /** The target at the observed path itself. */
  function Exact(ix: Index, o: Obs): seq<nat> {
    if o.path in ix.byPath then [ix.byPath[o.path].producer] else []
  }

  /** The targets filed below an enumerated directory. */
  function Beneath(ix: Index, o: Obs): seq<nat> {
    if o.kind.ObsEnumeration? then At(ix.below, o.path) else []
  }

  /** The producers one observation leads to, in the order the walk meets them. */
  function Visit(ix: Index, pinned: set<nat>, o: Obs): seq<nat> {
    if o.path.root in pinned then []
    else
      Exact(ix, o) + TreesAbove(ix, Ancestors(o.path)) + Beneath(ix, o)
  }

  function Visits(ix: Index, pinned: set<nat>, rows: seq<Obs>): seq<nat> {
    if rows == [] then [] else Visits(ix, pinned, rows[..|rows| - 1]) + Visit(ix, pinned, rows[|rows| - 1])
  }

  lemma {:induction false} TreesAboveMeans(ix: Index, dirs: seq<Path>, p: nat)
    ensures p in TreesAbove(ix, dirs) <==>
      exists d :: d in dirs && d in ix.byPath && ix.byPath[d] == Target(p, Tree)
  {
    if dirs != [] {
      var dir, front := dirs[|dirs| - 1], dirs[..|dirs| - 1];
      assert dirs == front + [dir];
      TreesAboveMeans(ix, front, p);
      if p in TreesAbove(ix, dirs) && p !in TreesAbove(ix, front) {
        assert ix.byPath[dir] == Target(p, Tree);
      }
      if d :| d in dirs && d in ix.byPath && ix.byPath[d] == Target(p, Tree) {
        assert d in front || d == dir;
      }
    }
  }

  /** Whatever an observation leads to is an action of the graph. */
  lemma VisitInRange(g: Graph, ix: Index, o: Obs, p: nat)
    requires IdsInRange(g) && Indexes(g, ix) && p in Visit(ix, g.pinned, o)
    ensures p < |g.actions|
  {
    TreesAboveMeans(ix, Ancestors(o.path), p);
    if p in At(ix.below, o.path) {
      var t :| 0 <= t < |g.artifacts| && WrittenBelow(g, t, p, o.path);
    } else {
      var d :| d in ix.byPath && ix.byPath[d].producer == p;
      var t :| 0 <= t < |g.artifacts| && g.Located(t) && g.artifacts[t].path == d;
    }
  }

  /** One observation leads to exactly the producers of the outputs it overlaps. */
  lemma VisitIsScan(g: Graph, ix: Index, o: Obs, p: nat)
    requires PathsSound(g) && Indexes(g, ix) && Anchored(o.path) && o.path.root !in g.pinned
    ensures p in Visit(ix, g.pinned, o) <==> SeenBy(g, o, p)
  {
    var above := Ancestors(o.path);
    TreesAboveMeans(ix, above, p);
    if SeenBy(g, o, p) {
      var t :| 0 <= t < |g.artifacts| && Overlaps(g, t, o) && g.artifacts[t].producer == Some(p);
      var path := g.artifacts[t].path;
      AncestorsAreContainers(path, o.path);
      if path == o.path {
      } else if g.artifacts[t].kind.Tree? && Within(path, o.path) {
        AncestorsAreContainers(o.path, path);
        assert path in ix.byPath && ix.byPath[path] == Target(p, Tree);
      } else {
        assert WrittenBelow(g, t, p, o.path);
      }
    }
    if p in Visit(ix, g.pinned, o) {
      VisitIsSeen(g, ix, o, p);
    }
  }

  lemma VisitIsSeen(g: Graph, ix: Index, o: Obs, p: nat)
    requires PathsSound(g) && Indexes(g, ix) && Anchored(o.path) && o.path.root !in g.pinned
    requires p in Visit(ix, g.pinned, o)
    ensures SeenBy(g, o, p)
  {
    var above := Ancestors(o.path);
    TreesAboveMeans(ix, above, p);
    if o.path in ix.byPath && p == ix.byPath[o.path].producer {
      var t :| 0 <= t < |g.artifacts| && g.Located(t) && g.artifacts[t].path == o.path;
      assert Overlaps(g, t, o);
    } else if p in TreesAbove(ix, above) {
      var d :| d in above && d in ix.byPath && ix.byPath[d] == Target(p, Tree);
      var t :| 0 <= t < |g.artifacts| && g.Located(t) && g.artifacts[t].path == d;
      AncestorsKeepRoot(o.path, d);
      AncestorsAreContainers(o.path, d);
      assert Overlaps(g, t, o);
    } else {
      assert o.kind.ObsEnumeration? && p in At(ix.below, o.path);
      var t :| 0 <= t < |g.artifacts| && WrittenBelow(g, t, p, o.path);
      AncestorsAreContainers(g.artifacts[t].path, o.path);
      assert Overlaps(g, t, o);
    }
  }

  /** The walk over the index reaches exactly the producers a scan of every artifact finds. */
  lemma {:induction false} VisitsAreScan(g: Graph, ix: Index, rows: seq<Obs>, p: nat)
    requires PathsSound(g) && Indexes(g, ix)
    requires forall i :: 0 <= i < |rows| ==> Anchored(rows[i].path)
    ensures p in Visits(ix, g.pinned, rows) <==> Sees(g, rows, p)
  {
    if rows != [] {
      var front, last := rows[..|rows| - 1], rows[|rows| - 1];
      VisitsAreScan(g, ix, front, p);
      if last.path.root !in g.pinned {
        VisitIsScan(g, ix, last, p);
      }
      SeesSplit(g, front, last, p);
      assert rows == front + [last];
      VisitsSplit(ix, g.pinned, rows, p);
    }
  }

  lemma VisitsSplit(ix: Index, pinned: set<nat>, rows: seq<Obs>, p: nat)
    requires rows != []
    ensures p in Visits(ix, pinned, rows) <==>
      p in Visits(ix, pinned, rows[..|rows| - 1]) || p in Visit(ix, pinned, rows[|rows| - 1])
  {
  }

  lemma SeesSplit(g: Graph, front: seq<Obs>, last: Obs, p: nat)
    ensures Sees(g, front + [last], p) <==> Sees(g, front, p) || (last.path.root !in g.pinned && SeenBy(g, last, p))
  {
    var rows := front + [last];
    assert rows[|front|] == last;
    if Sees(g, front, p) {
      var i :| 0 <= i < |front| && front[i].path.root !in g.pinned && SeenBy(g, front[i], p);
      assert rows[i] == front[i];
    }
  }

  // ---------------------------------------------------------------- against spn_dag_output_overlaps

  /** The index agrees with `spn_dag_output_overlaps` on one output exactly when the observation is an
      enumeration or the output does not lie strictly below the observed path. */
  lemma AgreesWithOutputOverlaps(g: Graph, t: nat, o: Obs)
    requires g.Located(t)
    ensures (Overlaps(g, t, o) <==> OutputOverlaps(g.artifacts[t], o.path))
       <==> (o.kind.ObsEnumeration? || g.artifacts[t].path == o.path || !Within(o.path, g.artifacts[t].path)
             || (g.artifacts[t].kind.Tree? && Within(g.artifacts[t].path, o.path)))
  {
  }

  /** A static action that writes gen/a.h, and a discovered one without inputs. */
  function GapGraph(): Graph {
    Graph([Artifact(File, "a.h", Path(3, "gen/a.h"), Some(0), [])],
          [Action(Static, 0, [], [0]), Action(Discovered, 1, [], [])], {})
  }

  function GapRead(): Obs {
    Obs(ObsFile, Path(3, "gen"), "")
  }

  lemma GapPaths()
    ensures PathsSound(GapGraph()) && PathsUnique(GapGraph()) && Anchored(GapRead().path)
    ensures Within(GapRead().path, GapGraph().artifacts[0].path)
  {
    assert "gen/a.h"[..3] == "gen";
  }

  lemma GapLists()
    ensures IdsInRange(GapGraph()) && ConsumersMirror(GapGraph()) && ProducersAgree(GapGraph())
    ensures OutputsNamed(GapGraph())
  {
    var g := GapGraph();
    assert forall a | 0 <= a < |g.actions| ::
      g.actions[a].consumes == [] && (g.actions[a].produces == if a == 0 then [0] else []);
    assert forall t | 0 <= t < |g.artifacts| :: t == 0 && g.artifacts[t].consumers == [];
  }

  /** A file observation of a directory that another action fills: overlapping by
      `spn_dag_output_overlaps`, yet no walk over the index waits for that action. */
  lemma DirectoryReadIsNotDeferred(ix: Index, p: nat)
    requires Indexes(GapGraph(), ix)
    ensures Wf(GapGraph()) && PathsUnique(GapGraph())
    ensures OutputOverlaps(GapGraph().artifacts[0], GapRead().path) && p !in Visits(ix, {}, [GapRead()])
  {
    var g, o := GapGraph(), GapRead();
    GapPaths();
    GapLists();
    assert g.artifacts[0].path != o.path && !g.artifacts[0].kind.Tree?;
    VisitsAreScan(g, ix, [o], p);
  }
}
