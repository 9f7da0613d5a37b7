/** When a run stops short (source/core/dag/run.c:1244-1252). */
module Stall {
  import opened Paths
  import opened Dag
  import opened Observations
  import opened Targets
  import opened Scheduler
  import opened Steps
  import opened Progress
  import opened Rings

  /** `a` consumes an output of `q`. */
  ghost predicate Feeds(g: Graph, q: nat, a: nat)
    requires a < |g.actions|
  {
    exists t :: t in g.actions[a].consumes && g.Produces(q, t)
  }

  /** The unfinished action `a` waits for the unfinished action `q`: it consumes an output of `q`, or
      it was deferred behind `q`. */
  ghost predicate BlockedBy(p: Plan, s: State, a: nat, q: nat)
    requires Shape(p, s)
  {
    && a < p.Size() && q < p.Size() && !s.slots[a].done && !s.slots[q].done
    && (Feeds(p.g, q, a) || a in s.slots[q].waiters)
  }

  ghost function Blocks(p: Plan, s: State): Edges
    requires Shape(p, s)
  {
    set a: nat, q: nat | a < p.Size() && q < p.Size() && BlockedBy(p, s, a, q) :: (a, q)
  }

  /** Nothing is left that could run. */
  predicate Quiet(s: State) {
    s.ready == [] && s.inFlight == 0 && !s.err
  }

  /** With nothing left to run, every unfinished action is blocked by an unfinished action. */
  lemma EveryoneBlocked(p: Plan, s: State, a: nat) returns (q: nat)
    requires Inv(p, s, {}) && Quiet(s) && a < p.Size() && !s.slots[a].done
    ensures q < p.Size() && BlockedBy(p, s, a, q)
  {
    assert Places(s, a) == 1;
    assert Pool(s) == {};
    assert InPool(s, a) ==> a in Pool(s);
    if s.slots[a].pending > 0 {
      OccurrencesPositive(p.g.actions[a].consumes, Open(p.g, s.slots));
      var t :| t in p.g.actions[a].consumes && t in Open(p.g, s.slots);
      q := p.g.artifacts[t].producer.value;
      assert p.g.Produces(q, t);
    } else {
      WaitSumPositive(s.slots, a);
      q :| q < |s.slots| && !s.slots[q].done && a in s.slots[q].waiters;
    }
  }

  lemma BlockerExists(p: Plan, s: State, live: set<nat>, a: nat)
    requires Inv(p, s, {}) && Quiet(s) && a < p.Size() && !s.slots[a].done
    requires forall q: nat :: q in live <==> q < p.Size() && !s.slots[q].done
    ensures HasNext(Blocks(p, s), live, a)
  {
    var q := EveryoneBlocked(p, s, a);
    assert q in live && (a, q) in Blocks(p, s);
  }

  lemma FindRing(p: Plan, s: State, a: nat) returns (ring: seq<nat>)
    requires Inv(p, s, {}) && Quiet(s) && a < p.Size() && !s.slots[a].done
    ensures Ring(Blocks(p, s), ring)
  {
    var edges, live := Blocks(p, s), set q: nat | q in UpTo(p.Size()) && !s.slots[q].done;
    forall b: nat | b in live ensures HasNext(edges, live, b) {
      BlockerExists(p, s, live, b);
    }
    ring := RingExists(edges, live, a);
  }

  /** A quiet run is incomplete exactly when some unfinished actions block each other in a ring. */
  lemma StalledIsRing(p: Plan, s: State)
    requires Inv(p, s, {}) && Quiet(s)
    ensures s.completed != p.Size() <==> exists ring :: Ring(Blocks(p, s), ring)
  {
    CompletedBound(p, s);
    if s.completed != p.Size() {
      var a :| 0 <= a < p.Size() && !s.slots[a].done;
      var ring := FindRing(p, s, a);
    }
    if ring :| Ring(Blocks(p, s), ring) {
      assert (ring[0], After(ring, 0)) in Blocks(p, s);
    }
  }

  // ---------------------------------------------------------------- graphs without discovered actions

  /** "Consumes an output of", between actions. */
  ghost function FeedEdges(g: Graph): Edges {
    set a: nat, q: nat | a < |g.actions| && q < |g.actions| && Feeds(g, q, a) :: (a, q)
  }

  predicate NothingDiscovered(g: Graph) {
    forall a :: 0 <= a < |g.actions| ==> !g.actions[a].kind.Discovered?
  }

  /** Completion epochs fall strictly along "consumes an output of". */
  lemma EpochsFall(p: Plan, s: State, a: nat, q: nat)
    requires Inv(p, s, {}) && a < p.Size() && s.slots[a].done && Feeds(p.g, q, a)
    ensures q < p.Size() && s.slots[q].done && s.slots[q].doneEpoch < s.slots[a].doneEpoch
  {
    var t :| t in p.g.actions[a].consumes && p.g.Produces(q, t);
    assert Started(s.slots[a]);
  }

  lemma NoFinishedRing(p: Plan, s: State, ring: seq<nat>)
    requires Inv(p, s, {}) && Ring(FeedEdges(p.g), ring)
    ensures exists a :: 0 <= a < p.Size() && !s.slots[a].done
  {
    var edges := FeedEdges(p.g);
    var rank := map a: nat | a in UpTo(p.Size()) && s.slots[a].done :: s.slots[a].doneEpoch;
    forall a, q | (a, q) in edges && a in rank ensures q in rank && rank[q] < rank[a] {
      EpochsFall(p, s, a, q);
    }
    RankedRing(edges, rank, ring);
    assert (ring[0], After(ring, 0)) in edges;
  }

  /** Without discovered actions, a quiet run completes exactly when no ring of actions feeds itself. */
  lemma StaticCompletes(p: Plan, s: State)
    requires Inv(p, s, {}) && Quiet(s) && NothingDiscovered(p.g)
    ensures s.completed == p.Size() <==> !exists ring :: Ring(FeedEdges(p.g), ring)
  {
    StalledIsRing(p, s);
    CompletedBound(p, s);
    if ring :| Ring(Blocks(p, s), ring) {
      forall i | 0 <= i < |ring| ensures (ring[i], After(ring, i)) in FeedEdges(p.g) {
        assert (ring[i], After(ring, i)) in Blocks(p, s);
        assert ring[i] !in s.slots[After(ring, i)].waiters;
      }
      assert Ring(FeedEdges(p.g), ring);
    }
    if ring :| Ring(FeedEdges(p.g), ring) {
      NoFinishedRing(p, s, ring);
    }
  }
}
