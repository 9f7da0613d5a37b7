/** Rings in a finite relation: following a successor for ever must come back. */
module Rings {
  import opened Dag

  type Edges = set<(nat, nat)>

  /** The element after the i-th, going round. */
  function After(ring: seq<nat>, i: nat): nat
    requires i < |ring|
  {
    if i + 1 == |ring| then ring[0] else ring[i + 1]
  }

  predicate Ring(edges: Edges, ring: seq<nat>) {
    ring != [] && forall i :: 0 <= i < |ring| ==> (ring[i], After(ring, i)) in edges
  }

  predicate Trail(edges: Edges, trail: seq<nat>) {
    trail != [] && NoDup(trail) && forall i :: 0 <= i < |trail| - 1 ==> (trail[i], After(trail, i)) in edges
  }

  function UpTo(n: nat): (r: set<nat>)
    ensures |r| == n && forall a :: a in r <==> 0 <= a < n
  {
    if n == 0 then {} else UpTo(n - 1) + {n - 1}
  }

  function Members(xs: seq<nat>): (r: set<nat>)
    ensures forall x :: x in r <==> x in xs
  {
    if xs == [] then {}
    else
      assert xs == xs[..|xs| - 1] + [xs[|xs| - 1]];
      Members(xs[..|xs| - 1]) + {xs[|xs| - 1]}
  }

  lemma {:induction false} Subsets<T>(a: set<T>, b: set<T>)
    requires a <= b
    ensures |a| <= |b| && (|a| == |b| ==> a == b)
    decreases |a|
  {
    if a != {} {
      var x :| x in a;
      Subsets(a - {x}, b - {x});
      assert a == (a - {x}) + {x} && b == (b - {x}) + {x};
    }
  }

  lemma {:induction false} DistinctCard(xs: seq<nat>)
    requires NoDup(xs)
    ensures |Members(xs)| == |xs|
  {
    if xs != [] {
      DistinctCard(xs[..|xs| - 1]);
    }
  }

  lemma CloseRing(edges: Edges, trail: seq<nat>, q: nat) returns (ring: seq<nat>)
    requires Trail(edges, trail) && q in trail && (trail[|trail| - 1], q) in edges
    ensures Ring(edges, ring)
  {
    var i :| 0 <= i < |trail| && trail[i] == q;
    ring := trail[i..];
    forall k | 0 <= k < |ring| ensures (ring[k], After(ring, k)) in edges {
      assert ring[k] == trail[i + k];
      assert k + 1 < |ring| ==> After(ring, k) == After(trail, i + k);
    }
  }

  lemma ExtendTrail(edges: Edges, trail: seq<nat>, q: nat)
    requires Trail(edges, trail) && q !in trail && (trail[|trail| - 1], q) in edges
    ensures Trail(edges, trail + [q])
  {
    var longer := trail + [q];
    forall i | 0 <= i < |longer| - 1 ensures (longer[i], After(longer, i)) in edges {
      assert i < |trail| - 1 ==> After(longer, i) == After(trail, i) && longer[i] == trail[i];
    }
  }

  ghost predicate HasNext(edges: Edges, live: set<nat>, a: nat) {
    exists q :: q in live && (a, q) in edges
  }

  lemma {:induction false} PickNext(edges: Edges, live: set<nat>, todo: set<nat>) returns (next: map<nat, nat>)
    requires forall a {:trigger HasNext(edges, live, a)} :: a in todo ==> HasNext(edges, live, a)
    ensures next.Keys == todo && forall a {:trigger next[a]} :: a in next ==> next[a] in live && (a, next[a]) in edges
    decreases |todo|
  {
    if todo == {} {
      next := map[];
    } else {
      var a :| a in todo;
      next := PickNext(edges, live, todo - {a});
      assert HasNext(edges, live, a);
      var q :| q in live && (a, q) in edges;
      next := next[a := q];
    }
  }

  /** `next` sends every member of `live` along an edge to a member of `live`. */
  ghost predicate Successors(edges: Edges, live: set<nat>, next: map<nat, nat>) {
    next.Keys == live && forall a {:trigger next[a]} :: a in next ==> next[a] in live && (a, next[a]) in edges
  }

  /** Where everyone in a finite set has a successor in the set, some ring exists. */
  lemma {:induction false} FollowRing(edges: Edges, live: set<nat>, next: map<nat, nat>, trail: seq<nat>)
    returns (ring: seq<nat>)
    requires Successors(edges, live, next)
    requires Trail(edges, trail) && Members(trail) <= live
    ensures Ring(edges, ring)
    decreases |live| - |trail|
  {
    var last := trail[|trail| - 1];
    assert last in Members(trail);
    var q := next[last];
    if q in trail {
      ring := CloseRing(edges, trail, q);
    } else {
      ExtendTrail(edges, trail, q);
      DistinctCard(trail + [q]);
      assert Members(trail + [q]) == Members(trail) + {q};
      Subsets(Members(trail + [q]), live);
      ring := FollowRing(edges, live, next, trail + [q]);
    }
  }

  lemma RingExists(edges: Edges, live: set<nat>, start: nat) returns (ring: seq<nat>)
    requires start in live && forall a {:trigger HasNext(edges, live, a)} :: a in live ==> HasNext(edges, live, a)
    ensures Ring(edges, ring)
  {
    var next := PickNext(edges, live, live);
    assert Members([start]) == {start};
    ring := FollowRing(edges, live, next, [start]);
  }

  /** No ring can start at a ranked element when edges lead from ranked elements to lower ranked ones. */
  lemma {:induction false} RanksFall(edges: Edges, rank: map<nat, nat>, ring: seq<nat>, k: nat)
    requires Ring(edges, ring) && ring[0] in rank && k < |ring|
    requires forall a, q :: (a, q) in edges && a in rank ==> q in rank && rank[q] < rank[a]
    ensures ring[k] in rank && rank[ring[k]] <= rank[ring[0]]
  {
    if k > 0 {
      RanksFall(edges, rank, ring, k - 1);
      assert (ring[k - 1], After(ring, k - 1)) in edges;
    }
  }

  lemma RankedRing(edges: Edges, rank: map<nat, nat>, ring: seq<nat>)
    requires Ring(edges, ring)
    requires forall a, q :: (a, q) in edges && a in rank ==> q in rank && rank[q] < rank[a]
    ensures ring[0] !in rank
  {
    var last := |ring| - 1;
    assert (ring[last], After(ring, last)) in edges;
    if ring[0] in rank {
      RanksFall(edges, rank, ring, last);
    }
  }
}
