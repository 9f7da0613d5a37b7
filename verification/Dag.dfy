/** The build graph: artifacts, actions, and the rules a graph must meet before it runs
    (source/core/dag/dag.c). */
module Dag {
  import opened Paths

  datatype ArtifactKind = Value | File | Tree
  datatype ActionKind = Static | Discovered | Uncacheable

  datatype Artifact = Artifact(kind: ArtifactKind, name: string, path: Path,
                               producer: Option<nat>, consumers: seq<nat>)
  datatype Action = Action(kind: ActionKind, identity: nat, consumes: seq<nat>, produces: seq<nat>)

  datatype Graph = Graph(artifacts: seq<Artifact>, actions: seq<Action>, pinned: set<nat>) {
    predicate Produces(a: nat, t: nat) {
      t < |artifacts| && artifacts[t].producer == Some(a)
    }

    /** An output with a place in the file system. */
    predicate Located(t: nat) {
      t < |artifacts| && artifacts[t].producer.Some? && !IsEmpty(artifacts[t].path)
    }
  }

  predicate NoDup<T(==)>(s: seq<T>) {
    forall i, j :: 0 <= i < j < |s| ==> s[i] != s[j]
  }

  predicate Below(ids: seq<nat>, n: nat) {
    forall i :: 0 <= i < |ids| ==> ids[i] < n
  }

  ghost predicate IdsInRange(g: Graph) {
    && (forall a :: 0 <= a < |g.actions| ==> Below(g.actions[a].consumes, |g.artifacts|))
    && (forall a :: 0 <= a < |g.actions| ==> Below(g.actions[a].produces, |g.artifacts|))
    && (forall t :: 0 <= t < |g.artifacts| ==> Below(g.artifacts[t].consumers, |g.actions|))
    && (forall t :: 0 <= t < |g.artifacts| && g.artifacts[t].producer.Some? ==>
         g.artifacts[t].producer.value < |g.actions|)
  }

  ghost predicate DistinctNames(g: Graph, ids: seq<nat>)
    requires Below(ids, |g.artifacts|)
  {
    forall i, j :: 0 <= i < j < |ids| ==> g.artifacts[ids[i]].name != g.artifacts[ids[j]].name
  }

  /** Every consumer list mirrors the consumes lists, with multiplicity. */
  ghost predicate ConsumersMirror(g: Graph) {
    forall t, a :: 0 <= t < |g.artifacts| && 0 <= a < |g.actions| ==>
      multiset(g.artifacts[t].consumers)[a] == multiset(g.actions[a].consumes)[t]
  }

  /** Every artifact has at most one producer, and produces it once. */
  ghost predicate ProducersAgree(g: Graph) {
    && (forall a :: 0 <= a < |g.actions| ==> NoDup(g.actions[a].produces))
    && (forall a, t :: 0 <= a < |g.actions| && 0 <= t < |g.artifacts| ==>
         (t in g.actions[a].produces <==> g.artifacts[t].producer == Some(a)))
  }

  ghost predicate OutputsNamed(g: Graph)
    requires IdsInRange(g)
  {
    && (forall t :: 0 <= t < |g.artifacts| && g.artifacts[t].producer.Some? ==>
         g.artifacts[t].name != "" && '/' !in g.artifacts[t].name)
    && (forall a :: 0 <= a < |g.actions| ==> DistinctNames(g, g.actions[a].produces))
  }

  ghost predicate PathsSound(g: Graph) {
    && (forall t :: 0 <= t < |g.artifacts| ==> Anchored(g.artifacts[t].path))
    && (forall t :: 0 <= t < |g.artifacts| && g.Located(t) ==>
         g.artifacts[t].path.root != NONE && g.artifacts[t].path.root !in g.pinned)
  }

  /** What every graph built through the operations below satisfies. */
  ghost predicate Wf(g: Graph) {
    IdsInRange(g) && ConsumersMirror(g) && ProducersAgree(g) && OutputsNamed(g) && PathsSound(g)
  }

  /** Every non-empty path belongs to one artifact only. */
  ghost predicate PathsUnique(g: Graph) {
    forall t, u | 0 <= t < |g.artifacts| && 0 <= u < |g.artifacts| && g.artifacts[t].path == g.artifacts[u].path ::
      !IsEmpty(g.artifacts[t].path) ==> t == u
  }

  /** `spn_dag_output_overlaps`. */
  predicate OutputOverlaps(artifact: Artifact, path: Path) {
    artifact.producer.Some? &&
    (Within(path, artifact.path) || (artifact.kind.Tree? && Within(artifact.path, path)))
  }

  datatype Error =
    | Ok | DuplicateOutput | PinnedOutput | OutputName | PathKind | TreeInput | TreeRoot | NestedOutput | NestedInput

  datatype Violation = Violation(err: Error, path: Path)

  function BaseName(sub: string): string {
    sub[LastSep(sub) + 1..]
  }

  /** The last part of a path is what stands behind its last separator. */
  lemma BaseNameMeans(dir: string, name: string)
    requires '/' !in name
    ensures BaseName(name) == name && BaseName(dir + ("/" + name)) == name
  {
    var sub := dir + ("/" + name);
    assert sub[|dir|] == '/' && forall i :: |dir| < i < |sub| ==> sub[i] == name[i - |dir| - 1];
    assert LastSep(sub) == |dir| && LastSep(name) == -1;
    assert sub[|dir| + 1..] == name;
  }

  // The four ways a graph grows. Each keeps `Wf`.

  function WithArtifact(g: Graph, artifact: Artifact): Graph {
    g.(artifacts := g.artifacts + [artifact])
  }

  function WithAction(g: Graph, kind: ActionKind, identity: nat): Graph {
    g.(actions := g.actions + [Action(kind, identity, [], [])])
  }

  function WithInput(g: Graph, a: nat, t: nat): Graph
    requires a < |g.actions| && t < |g.artifacts|
  {
    g.(actions := g.actions[a := g.actions[a].(consumes := g.actions[a].consumes + [t])],
       artifacts := g.artifacts[t := g.artifacts[t].(consumers := g.artifacts[t].consumers + [a])])
  }

  function WithName(g: Graph, t: nat, name: string): Graph
    requires t < |g.artifacts|
  {
    g.(artifacts := g.artifacts[t := g.artifacts[t].(name := name)])
  }

  function WithOutput(g: Graph, a: nat, t: nat): Graph
    requires a < |g.actions| && t < |g.artifacts|
  {
    g.(actions := g.actions[a := g.actions[a].(produces := g.actions[a].produces + [t])],
       artifacts := g.artifacts[t := g.artifacts[t].(producer := Some(a))])
  }

  /** Nothing is wired to an artifact that is yet to come. */
  lemma FreshIsUnused(g: Graph, a: nat)
    requires IdsInRange(g) && a < |g.actions|
    ensures multiset(g.actions[a].consumes)[|g.artifacts|] == 0 && |g.artifacts| !in g.actions[a].produces
  {
    assert |g.artifacts| !in g.actions[a].consumes;
  }

  lemma ArtifactKeepsWiring(g: Graph, artifact: Artifact)
    requires Wf(g) && artifact.producer.None? && artifact.consumers == []
    ensures ConsumersMirror(WithArtifact(g, artifact)) && ProducersAgree(WithArtifact(g, artifact))
  {
    var h, id := WithArtifact(g, artifact), |g.artifacts|;
    assert forall t :: 0 <= t < id ==> h.artifacts[t] == g.artifacts[t];
    forall a | 0 <= a < |g.actions| ensures multiset(g.actions[a].consumes)[id] == 0 && id !in g.actions[a].produces {
      FreshIsUnused(g, a);
    }
  }

  lemma ArtifactKeepsWf(g: Graph, artifact: Artifact)
    requires Wf(g) && artifact.producer.None? && artifact.consumers == [] && Anchored(artifact.path)
    ensures Wf(WithArtifact(g, artifact))
  {
    var h := WithArtifact(g, artifact);
    assert forall t :: 0 <= t < |g.artifacts| ==> h.artifacts[t] == g.artifacts[t];
    ArtifactKeepsWiring(g, artifact);
    assert OutputsNamed(h);
  }

  lemma ActionKeepsWf(g: Graph, kind: ActionKind, identity: nat)
    requires Wf(g)
    ensures Wf(WithAction(g, kind, identity))
  {
    var h, id := WithAction(g, kind, identity), |g.actions|;
    forall t | 0 <= t < |g.artifacts|
      ensures multiset(g.artifacts[t].consumers)[id] == 0 && g.artifacts[t].producer != Some(id)
    {
      assert id !in g.artifacts[t].consumers;
    }
    assert forall a :: 0 <= a < id ==> h.actions[a] == g.actions[a];
    assert ConsumersMirror(h);
    assert ProducersAgree(h);
    assert OutputsNamed(h);
  }

  /** Growing the wiring leaves names and places alone. */
  lemma SameOutputs(g: Graph, h: Graph)
    requires IdsInRange(g) && IdsInRange(h) && OutputsNamed(g) && PathsSound(g)
    requires |g.artifacts| == |h.artifacts| && |g.actions| == |h.actions| && g.pinned == h.pinned
    requires forall a :: 0 <= a < |g.actions| ==> g.actions[a].produces == h.actions[a].produces
    requires forall t :: 0 <= t < |g.artifacts| ==>
      g.artifacts[t].(consumers := []) == h.artifacts[t].(consumers := [])
    ensures OutputsNamed(h) && PathsSound(h)
  {
    forall t | 0 <= t < |g.artifacts|
      ensures g.artifacts[t].name == h.artifacts[t].name && g.artifacts[t].path == h.artifacts[t].path
      ensures g.artifacts[t].producer == h.artifacts[t].producer
    {
      assert g.artifacts[t].(consumers := []) == h.artifacts[t].(consumers := []);
    }
    forall a | 0 <= a < |g.actions| ensures DistinctNames(h, h.actions[a].produces) {
      assert DistinctNames(g, g.actions[a].produces);
    }
  }

  lemma InputKeepsWf(g: Graph, a: nat, t: nat)
    requires Wf(g) && a < |g.actions| && t < |g.artifacts|
    ensures Wf(WithInput(g, a, t))
  {
    var h := WithInput(g, a, t);
    assert IdsInRange(h);
    InputMirrors(g, a, t);
    assert ProducersAgree(h);
    SameOutputs(g, h);
  }

  lemma InputMirrors(g: Graph, a: nat, t: nat)
    requires ConsumersMirror(g) && a < |g.actions| && t < |g.artifacts|
    ensures ConsumersMirror(WithInput(g, a, t))
  {
    var h := WithInput(g, a, t);
    forall u, b | 0 <= u < |g.artifacts| && 0 <= b < |g.actions|
      ensures multiset(h.artifacts[u].consumers)[b] == multiset(h.actions[b].consumes)[u]
    {
      assert multiset(g.artifacts[u].consumers)[b] == multiset(g.actions[b].consumes)[u];
    }
  }

  lemma NameKeepsWf(g: Graph, t: nat, name: string)
    requires Wf(g) && t < |g.artifacts| && g.artifacts[t].producer.None?
    ensures Wf(WithName(g, t, name))
  {
    var h := WithName(g, t, name);
    assert ConsumersMirror(h);
    assert ProducersAgree(h);
    forall a, i | 0 <= a < |g.actions| && 0 <= i < |g.actions[a].produces| ensures g.actions[a].produces[i] != t {
      assert g.actions[a].produces[i] in g.actions[a].produces;
    }
    assert OutputsNamed(h);
  }

  /** The name an output takes: its own, or the last part of its path. */
  function OutputNameOf(artifact: Artifact): string {
    if artifact.name == "" then BaseName(artifact.path.sub) else artifact.name
  }

  ghost predicate MayProduce(g: Graph, a: nat, t: nat)
    requires IdsInRange(g) && a < |g.actions| && t < |g.artifacts|
  {
    var artifact, named := g.artifacts[t], OutputNameOf(g.artifacts[t]);
    && artifact.producer.None?
    && (IsEmpty(artifact.path) || artifact.path.root !in g.pinned)
    && named != "" && '/' !in named
    && forall i :: 0 <= i < |g.actions[a].produces| ==> g.artifacts[g.actions[a].produces[i]].name != named
  }

  /** Taking its name first does not change whether an artifact may become an output. */
  lemma NamingIsNeutral(g: Graph, a: nat, t: nat)
    requires Wf(g) && a < |g.actions| && t < |g.artifacts| && g.artifacts[t].producer.None?
    ensures var h := WithName(g, t, OutputNameOf(g.artifacts[t]));
      && Wf(h) && h.artifacts[t].name == OutputNameOf(h.artifacts[t]) == OutputNameOf(g.artifacts[t])
      && (MayProduce(h, a, t) <==> MayProduce(g, a, t))
  {
    var h := WithName(g, t, OutputNameOf(g.artifacts[t]));
    NameKeepsWf(g, t, OutputNameOf(g.artifacts[t]));
    forall i | 0 <= i < |g.actions[a].produces|
      ensures h.artifacts[g.actions[a].produces[i]] == g.artifacts[g.actions[a].produces[i]]
    {
      assert g.actions[a].produces[i] in g.actions[a].produces;
    }
  }

  lemma OutputProducers(g: Graph, a: nat, t: nat)
    requires IdsInRange(g) && ProducersAgree(g) && a < |g.actions| && t < |g.artifacts| && g.artifacts[t].producer.None?
    ensures ProducersAgree(WithOutput(g, a, t))
  {
    var h := WithOutput(g, a, t);
    assert t !in g.actions[a].produces;
    forall b, u | 0 <= b < |g.actions| && 0 <= u < |g.artifacts|
      ensures u in h.actions[b].produces <==> h.artifacts[u].producer == Some(b)
    {
      assert u in g.actions[b].produces <==> g.artifacts[u].producer == Some(b);
    }
  }

  lemma OutputNames(g: Graph, a: nat, t: nat)
    requires IdsInRange(g) && OutputsNamed(g) && a < |g.actions| && t < |g.artifacts| && MayProduce(g, a, t)
    requires g.artifacts[t].name != "" && IdsInRange(WithOutput(g, a, t))
    ensures OutputsNamed(WithOutput(g, a, t))
  {
    var h := WithOutput(g, a, t);
    forall u | 0 <= u < |g.artifacts| ensures h.artifacts[u].name == g.artifacts[u].name {
    }
    forall b | 0 <= b < |g.actions| ensures DistinctNames(h, h.actions[b].produces) {
      assert DistinctNames(g, g.actions[b].produces);
    }
  }

  lemma OutputKeepsWf(g: Graph, a: nat, t: nat)
    requires Wf(g) && a < |g.actions| && t < |g.artifacts| && MayProduce(g, a, t)
    requires IsEmpty(g.artifacts[t].path) || g.artifacts[t].path.root != NONE
    requires g.artifacts[t].name != ""
    ensures Wf(WithOutput(g, a, t))
  {
    var h := WithOutput(g, a, t);
    assert forall u :: 0 <= u < |g.artifacts| ==>
      h.artifacts[u].name == g.artifacts[u].name && h.artifacts[u].path == g.artifacts[u].path
      && h.artifacts[u].consumers == g.artifacts[u].consumers;
    assert IdsInRange(h);
    assert ConsumersMirror(h) by {
      forall u, b | 0 <= u < |g.artifacts| && 0 <= b < |g.actions|
        ensures multiset(h.artifacts[u].consumers)[b] == multiset(h.actions[b].consumes)[u]
      {
        assert multiset(g.artifacts[u].consumers)[b] == multiset(g.actions[b].consumes)[u];
      }
    }
    OutputProducers(g, a, t);
    OutputNames(g, a, t);
    assert PathsSound(h);
  }

  class Builder {
    var artifacts: seq<Artifact>
    var actions: seq<Action>
    var paths: map<Path, nat>
    const pinned: set<nat>

    ghost function G(): Graph
      reads this
    {
      Graph(artifacts, actions, pinned)
    }

    ghost predicate Valid()
      reads this
    {
      && Wf(G())
      && (forall p :: p in paths ==> paths[p] < |artifacts| && artifacts[paths[p]].path == p)
      && (forall t :: 0 <= t < |artifacts| && !IsEmpty(artifacts[t].path) ==> artifacts[t].path in paths)
    }

    constructor (pinned: set<nat>)
      ensures Valid() && G() == Graph([], [], pinned)
    {
      artifacts, actions, paths, this.pinned := [], [], map[], pinned;
    }

    method AddArtifact(artifact: Artifact) returns (id: nat)
      requires Valid() && artifact.producer.None? && artifact.consumers == [] && Anchored(artifact.path)
      modifies this`artifacts
      ensures id == |old(artifacts)| && artifacts == old(artifacts) + [artifact]
      ensures Wf(G())
    {
      ArtifactKeepsWf(G(), artifact);
      id := |artifacts|;
      artifacts := artifacts + [artifact];
    }

    /** An artifact is shared by every caller that names the same path with the same kind;
        only the first artifact at a path is indexed. */
    method AddPath(path: Path, kind: ArtifactKind) returns (id: nat)
      requires Valid() && !IsEmpty(path) && Anchored(path)
      modifies this
      ensures Valid() && actions == old(actions)
      ensures id < |artifacts| && artifacts[id].path == path && artifacts[id].kind == kind
      ensures if path in old(paths) && old(artifacts[paths[path]]).kind == kind
              then id == old(paths)[path] && artifacts == old(artifacts) && paths == old(paths)
              else artifacts == old(artifacts) + [Artifact(kind, "", path, None, [])] && id == |old(artifacts)|
    {
      if path in paths && artifacts[paths[path]].kind == kind {
        return paths[path];
      }
      id := AddArtifact(Artifact(kind, "", path, None, []));
      if path !in paths {
        paths := paths[path := id];
      }
    }

    method AddValue() returns (id: nat)
      requires Valid()
      modifies this`artifacts
      ensures Valid() && id == |old(artifacts)|
      ensures artifacts == old(artifacts) + [Artifact(Value, "", Path(NONE, ""), None, [])]
    {
      id := AddArtifact(Artifact(Value, "", Path(NONE, ""), None, []));
    }

    method AddOutput(name: string) returns (id: nat)
      requires Valid()
      modifies this`artifacts
      ensures Valid() && id == |old(artifacts)|
      ensures artifacts == old(artifacts) + [Artifact(File, name, Path(NONE, ""), None, [])]
    {
      id := AddArtifact(Artifact(File, name, Path(NONE, ""), None, []));
    }

    method AddAction(kind: ActionKind, identity: nat) returns (id: nat)
      requires Valid()
      modifies this`actions
      ensures Valid() && id == |old(actions)| && G() == WithAction(old(G()), kind, identity)
    {
      ActionKeepsWf(G(), kind, identity);
      id := |actions|;
      actions := actions + [Action(kind, identity, [], [])];
    }

    method ActionAddInput(a: nat, t: nat)
      requires Valid() && a < |actions| && t < |artifacts|
      modifies this`artifacts, this`actions
      ensures Valid() && G() == WithInput(old(G()), a, t)
    {
      InputKeepsWf(G(), a, t);
      actions := actions[a := actions[a].(consumes := actions[a].consumes + [t])];
      artifacts := artifacts[t := artifacts[t].(consumers := artifacts[t].consumers + [a])];
    }

    method SettleName(ghost a: nat, t: nat)
      requires Valid() && a < |actions| && t < |artifacts| && artifacts[t].producer.None?
      modifies this`artifacts
      ensures Valid() && G() == WithName(old(G()), t, OutputNameOf(old(artifacts[t])))
      ensures artifacts[t].name == OutputNameOf(old(artifacts[t])) == OutputNameOf(artifacts[t])
      ensures MayProduce(G(), a, t) <==> MayProduce(old(G()), a, t)
    {
      NamingIsNeutral(G(), a, t);
      assert artifacts[t := artifacts[t]] == artifacts;
      if artifacts[t].name == "" {
        artifacts := artifacts[t := artifacts[t].(name := BaseName(artifacts[t].path.sub))];
      }
    }

    method Attach(a: nat, t: nat)
      requires Valid() && a < |actions| && t < |artifacts| && MayProduce(G(), a, t) && artifacts[t].name != ""
      requires IsEmpty(artifacts[t].path) || artifacts[t].path.root != NONE
      modifies this`artifacts, this`actions
      ensures Valid() && G() == WithOutput(old(G()), a, t)
    {
      OutputKeepsWf(G(), a, t);
      artifacts := artifacts[t := artifacts[t].(producer := Some(a))];
      actions := actions[a := actions[a].(produces := actions[a].produces + [t])];
    }

    method NameTaken(a: nat, name: string) returns (taken: bool)
      requires Valid() && a < |actions|
      ensures taken <==> exists i :: 0 <= i < |actions[a].produces| && artifacts[actions[a].produces[i]].name == name
    {
      for it := 0 to |actions[a].produces|
        invariant forall i :: 0 <= i < it ==> artifacts[actions[a].produces[i]].name != name
      {
        if artifacts[actions[a].produces[it]].name == name {
          return true;
        }
      }
      return false;
    }

    /** Refuses a second producer, a pinned location, a bad name and a repeated name; otherwise the
        artifact belongs to the action. A refused artifact may still have received its name. */
    method ActionAddOutput(a: nat, t: nat) returns (err: Error)
      requires Valid() && a < |actions| && t < |artifacts|
      requires IsEmpty(artifacts[t].path) || artifacts[t].path.root != NONE
      modifies this`artifacts, this`actions
      ensures Valid()
      ensures err.Ok? <==> MayProduce(old(G()), a, t)
      ensures old(artifacts[t]).producer.Some? ==> err == DuplicateOutput
      ensures err.PinnedOutput? <==>
        old(artifacts[t]).producer.None? && !IsEmpty(old(artifacts[t]).path) && old(artifacts[t]).path.root in pinned
      ensures err.OutputName? ==> OutputNameOf(old(artifacts[t])) == "" || '/' in OutputNameOf(old(artifacts[t]))
      ensures err.DuplicateOutput? && old(artifacts[t]).producer.None? ==>
        && OutputNameOf(old(artifacts[t])) != "" && '/' !in OutputNameOf(old(artifacts[t]))
        && exists u :: u in old(actions[a]).produces && old(artifacts)[u].name == OutputNameOf(old(artifacts[t]))
      ensures err.Ok? ==> G() == WithOutput(WithName(old(G()), t, OutputNameOf(old(artifacts[t]))), a, t)
      ensures !err.Ok? ==> G() == old(G()) || G() == WithName(old(G()), t, OutputNameOf(old(artifacts[t])))
    {
      if artifacts[t].producer.Some? {
        return DuplicateOutput;
      }
      if !IsEmpty(artifacts[t].path) {
        if artifacts[t].path.root in pinned {
          return PinnedOutput;
        }
      }
      SettleName(a, t);
      assert MayProduce(G(), a, t) <==> old(MayProduce(G(), a, t));
      if artifacts[t].name == "" {
        return OutputName;
      }
      if '/' in artifacts[t].name {
        return OutputName;
      }
      var taken := NameTaken(a, artifacts[t].name);
      if taken {
        return DuplicateOutput;
      }
      Attach(a, t);
      return Ok;
    }

    /** The nearest-first search for a tree above a path. */
    method TreeAbove(path: Path) returns (found: bool)
      requires Valid() && path.root != NONE && Anchored(path)
      ensures found <==>
        exists d :: d in paths && d.sub != "" && d != path && Within(d, path) && artifacts[paths[d]].kind.Tree?
    {
      var dir := Parent(path);
      if path.sub != "" {
        forall d: Path ensures Within(d, path) && d != path <==> Within(d, Parent(path)) {
          WithinParent(d, path);
        }
        WithinParent(path, path);
      }
      while dir.sub != ""
        invariant dir.root == path.root && Anchored(dir) && (path.sub == "" ==> dir == path)
        invariant forall d: Path :: d.sub != "" && d != path && Within(d, path) && !Within(d, dir) ==>
          !(d in paths && artifacts[paths[d]].kind.Tree?)
        invariant path.sub != "" ==> forall d :: Within(d, dir) ==> Within(d, path) && d != path
        decreases |dir.sub|
      {
        if dir in paths && artifacts[paths[dir]].kind.Tree? {
          return true;
        }
        forall d: Path ensures Within(d, dir) && d != dir <==> Within(d, Parent(dir)) {
          WithinParent(d, dir);
        }
        WithinParent(dir, dir);
        dir := Parent(dir);
      }
      return false;
    }

    ghost predicate Accepted(t: nat, coversRoot: Path -> bool)
      requires t < |artifacts|
      reads this
    {
      var artifact := artifacts[t];
      !IsEmpty(artifact.path) ==>
        && artifact.path in paths && paths[artifact.path] == t
        && (artifact.kind.Tree? ==> artifact.producer.Some? && !coversRoot(artifact.path))
        && (artifact.path.root != NONE ==>
             !exists d :: d in paths && d.sub != "" && d != artifact.path && Within(d, artifact.path)
               && paths[d] < |artifacts| && artifacts[paths[d]].kind.Tree?)
    }

    /** Some directory above the artifact, short of its root, is a tree of the graph. */
    ghost predicate BelowTree(t: nat)
      requires t < |artifacts|
      reads this
    {
      exists u, d :: d in paths && paths[d] == u < |artifacts| && artifacts[u].kind.Tree? && d.sub != ""
        && d != artifacts[t].path && Within(d, artifacts[t].path)
    }

    /** Which rule an error stands for; earlier rules come first. */
    ghost predicate Breaks(t: nat, err: Error, coversRoot: Path -> bool)
      requires t < |artifacts|
      reads this
    {
      var artifact := artifacts[t];
      var first := artifact.path in paths && paths[artifact.path] == t;
      match err
      case PathKind => !first
      case TreeInput => first && artifact.kind.Tree? && artifact.producer.None?
      case TreeRoot => first && artifact.kind.Tree? && artifact.producer.Some? && coversRoot(artifact.path)
      case NestedOutput => first && artifact.producer.Some? && artifact.path.root != NONE && BelowTree(t)
      case NestedInput => first && artifact.producer.None? && artifact.path.root != NONE && BelowTree(t)
      case _ => false
    }

    /** Reports the first artifact that breaks a rule. `coversRoot` says which directories contain a
        root of the build. */
    method Validate(coversRoot: Path -> bool) returns (violation: Violation)
      requires Valid()
      ensures violation.err.Ok? <==> forall t :: 0 <= t < |artifacts| ==> Accepted(t, coversRoot)
      ensures !violation.err.Ok? ==>
        exists t | 0 <= t < |artifacts| ::
          && artifacts[t].path == violation.path && !Accepted(t, coversRoot) && Breaks(t, violation.err, coversRoot)
          && forall u :: 0 <= u < t ==> Accepted(u, coversRoot)
    {
      for it := 0 to |artifacts|
        invariant forall t :: 0 <= t < it ==> Accepted(t, coversRoot)
      {
        hide Valid, Accepted, Breaks;
        var err := Judge(it, coversRoot);
        if !err.Ok? {
          return Violation(err, artifacts[it].path);
        }
      }
      violation := Violation(Ok, Path(NONE, ""));
    }

    /** The rule one artifact breaks, if any. */
    method Judge(t: nat, coversRoot: Path -> bool) returns (err: Error)
      requires Valid() && t < |artifacts|
      ensures err.Ok? <==> Accepted(t, coversRoot)
      ensures !err.Ok? ==> Breaks(t, err, coversRoot)
    {
      var artifact := artifacts[t];
      err := Ok;
      if IsEmpty(artifact.path) {
        return;
      }
      var tree := artifact.kind.Tree?;
      if paths[artifact.path] != t {
        err := PathKind;
      } else if tree && artifact.producer.None? {
        err := TreeInput;
      } else if tree && coversRoot(artifact.path) {
        err := TreeRoot;
      } else if artifact.path.root != NONE {
        var above := TreeAbove(artifact.path);
        if above {
          err := if artifact.producer.Some? then NestedOutput else NestedInput;
        }
      }
    }

    /** Artifact `u` lies at or below the tree artifact `t`, which is not a whole root. */
    predicate InsideTree(t: nat, u: nat)
      requires t < |artifacts| && u < |artifacts|
      reads this
    {
      && artifacts[t].kind.Tree? && artifacts[t].path.root != NONE && artifacts[t].path.sub != ""
      && Within(artifacts[t].path, artifacts[u].path)
    }

    /** What a graph that passed validation guarantees to the run: one artifact for each path, and
        nothing below a produced tree. */
    lemma AcceptedGraph(coversRoot: Path -> bool)
      requires Valid() && forall t :: 0 <= t < |artifacts| ==> Accepted(t, coversRoot)
      ensures PathsUnique(G())
      ensures forall t, u | 0 <= t < |artifacts| && 0 <= u < |artifacts| && InsideTree(t, u) :: t == u
    {
      forall t, u | 0 <= t < |artifacts| && 0 <= u < |artifacts| && artifacts[t].path == artifacts[u].path
        && !IsEmpty(artifacts[t].path)
        ensures t == u
      {
        assert Accepted(t, coversRoot) && Accepted(u, coversRoot);
      }
      forall t, u | 0 <= t < |artifacts| && 0 <= u < |artifacts| && InsideTree(t, u)
        ensures t == u
      {
        assert Accepted(t, coversRoot) && Accepted(u, coversRoot);
      }
    }
  }
}
