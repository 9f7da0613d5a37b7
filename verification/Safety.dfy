/** What the invariant of a run says about the reads of a committed action, in terms of the graph alone
    (source/core/dag/run.c:939-1176, source/core/dag/dag.c:149-156). */
module Safety {
  import opened Paths
  import opened Dag
  import opened Observations
  import opened Targets
  import opened Scheduler

  /** `q` is behind the finished action `a`: done before it, and either before its last flight was picked
      up by a worker or without having written anything. */
  ghost predicate Behind(p: Plan, s: State, q: nat, a: nat)
    requires Shape(p, s) && a < p.Size()
  {
    && q < p.Size() && s.slots[q].done && s.slots[q].doneEpoch < s.slots[a].doneEpoch
    && (s.slots[q].doneEpoch <= s.slots[a].flight.epoch || !s.slots[q].wrote)
  }

  /** In every reachable state, whoever produces what a finished discovered action observed is behind it. */
  lemma ReadsAreFinal(p: Plan, s: State, held: set<nat>, a: nat, q: nat)
    requires Inv(p, s, held) && a < p.Size() && p.g.actions[a].kind.Discovered? && s.slots[a].done
    requires forall i :: 0 <= i < |Basis(s, a)| ==> Anchored(Basis(s, a)[i].path)
    requires Sees(p.g, Basis(s, a), q) && q != a
    ensures Behind(p, s, q, a)
  {
    VisitsAreScan(p.g, p.ix, Basis(s, a), q);
    assert Grounded(p, s, a);
  }

  /** The same for one executed observation and one output that overlaps it. The side condition is the
      one under which the index agrees with `spn_dag_output_overlaps`; it always holds for enumerations. */
  lemma OverlappedOutputIsFinal(p: Plan, s: State, held: set<nat>, a: nat, o: Obs, t: nat, q: nat)
    requires Inv(p, s, held) && a < p.Size() && p.g.actions[a].kind.Discovered? && s.slots[a].done
    requires !s.slots[a].flight.hit
    requires forall i :: 0 <= i < |s.slots[a].flight.rows| ==> Anchored(s.slots[a].flight.rows[i].path)
    requires o in s.slots[a].flight.rows && o.path.root !in p.g.pinned
    requires p.g.Produces(q, t) && p.g.Located(t) && OutputOverlaps(p.g.artifacts[t], o.path) && q != a
    requires o.kind.ObsEnumeration? || p.g.artifacts[t].path == o.path || !Within(o.path, p.g.artifacts[t].path)
             || (p.g.artifacts[t].kind.Tree? && Within(p.g.artifacts[t].path, o.path))
    ensures Behind(p, s, q, a)
  {
    AgreesWithOutputOverlaps(p.g, t, o);
    assert SeenBy(p.g, o, q);
    var i :| 0 <= i < |Basis(s, a)| && Basis(s, a)[i] == o;
    assert Sees(p.g, Basis(s, a), q);
    ReadsAreFinal(p, s, held, a, q);
  }

  /** Declared inputs are settled even earlier: before the consumer's last flight began. */
  lemma InputsAreFinal(p: Plan, s: State, held: set<nat>, a: nat, t: nat, q: nat)
    requires Inv(p, s, held) && a < p.Size() && Started(s.slots[a]) && t in p.g.actions[a].consumes
    requires p.g.Produces(q, t)
    ensures q < p.Size() && s.slots[q].done && s.slots[q].doneEpoch <= s.slots[a].flight.epoch
    ensures s.slots[a].done ==> Behind(p, s, q, a)
  {
    assert Timed(p, s);
  }

  /** An action in flight, ready, waiting or done is in that place alone, and its counts are exact. */
  lemma PlacesAreExclusive(p: Plan, s: State, a: nat)
    requires Inv(p, s, {}) && !s.err && a < p.Size()
    ensures multiset(s.ready)[a] <= 1
    ensures [s.slots[a].pending > 0, a in s.ready, InPool(s, a), s.slots[a].deferred > 0, s.slots[a].done]
         in OneOfFive()
    ensures s.slots[a].deferred > 0 <==> exists q :: 0 <= q < p.Size() && !s.slots[q].done && a in s.slots[q].waiters
  {
    assert Places(s, a) == 1;
    if s.slots[a].deferred > 0 {
      WaitSumPositive(s.slots, a);
    }
    if q :| 0 <= q < p.Size() && !s.slots[q].done && a in s.slots[q].waiters {
      WaitSumUpdate(s.slots, q, s.slots[q], a);
    }
  }

  function OneOfFive(): set<seq<bool>> {
    {[true, false, false, false, false], [false, true, false, false, false], [false, false, true, false, false],
     [false, false, false, true, false], [false, false, false, false, true]}
  }
}
