/** Deferring an action behind others, and finishing one (source/core/dag/run.c:939-954, 1053-1081). */
module Finishing {
  import opened Paths
  import opened Dag
  import opened Observations
  import opened Targets
  import opened Scheduler
  import opened Steps

  // ---------------------------------------------------------------- deferring

  /** `s'` differs from `s` only in waiter lists and deferral counts. */
  ghost predicate SameFlights(s: State, s': State) {
    && s' == s.(slots := s'.slots) && |s.slots| == |s'.slots|
    && forall b :: 0 <= b < |s.slots| ==>
         s'.slots[b] == s.slots[b].(deferred := s'.slots[b].deferred, waiters := s'.slots[b].waiters)
  }

  lemma SameFlightsReads(p: Plan, s: State, s': State, b: nat)
    requires Shape(p, s) && SameFlights(s, s') && Shape(p, s') && b < p.Size()
    requires LookupSafe(p, s, b) && HitsRecorded(p, s, b) && Grounded(p, s, b)
    ensures LookupSafe(p, s', b) && HitsRecorded(p, s', b) && Grounded(p, s', b)
  {
    assert Basis(s', b) == Basis(s, b);
  }

  lemma SameFlightsInputs(p: Plan, s: State, s': State)
    requires Shape(p, s) && SameFlights(s, s') && Shape(p, s') && InputsFirst(p, s)
    ensures InputsFirst(p, s')
  {
    forall b: nat, t: nat, q: nat | b < p.Size() && t in p.g.actions[b].consumes && p.g.Produces(q, t)
      && Started(s'.slots[b])
      ensures q < p.Size() && s'.slots[q].done && s'.slots[q].doneEpoch <= s'.slots[b].flight.epoch
    {
      assert Started(s.slots[b]);
    }
  }

  lemma SameFlightsKeep(p: Plan, s: State, s': State)
    requires Shape(p, s) && Timed(p, s) && Parked(p, s) && InputsFirst(p, s) && ReadsSafe(p, s)
    requires SameFlights(s, s') && Shape(p, s')
    ensures Timed(p, s') && Parked(p, s') && InputsFirst(p, s') && ReadsSafe(p, s')
    ensures Open(p.g, s'.slots) == Open(p.g, s.slots)
  {
    OpenSame(p.g, s.slots, s'.slots);
    assert Pool(s') == Pool(s);
    assert Done(s') == Done(s);
    SameFlightsInputs(p, s, s');
    forall b | 0 <= b < p.Size() ensures LookupSafe(p, s', b) && HitsRecorded(p, s', b) && Grounded(p, s', b) {
      SameFlightsReads(p, s, s', b);
    }
  }

  /** An action still counts as held until it waits for something. */
  function Holding(s: State, a: nat): set<nat>
    requires a < |s.slots|
  {
    if s.slots[a].deferred > 0 then {} else {a}
  }

  lemma DeferOneCounts(p: Plan, s: State, a: nat, q: nat, c: nat)
    requires Shape(p, s) && a < p.Size() && q < p.Size() && c < p.Size() && q != a && !s.slots[q].done
    ensures WaitSum(DeferOne(s, a, q).slots, c) == WaitSum(s.slots, c) + Bit(c == a)
  {
    var waiting := s.slots[q := s.slots[q].(waiters := s.slots[q].waiters + [a])];
    WaitSumUpdate(s.slots, q, waiting[q], c);
    WaitSumUpdate(waiting, a, DeferOne(s, a, q).slots[a], c);
  }

  /** Deferring `a` moves no other action. */
  lemma DeferringPlaces(p: Plan, s: State, s': State, a: nat)
    requires Shape(p, s) && Shape(p, s') && SameFlights(s, s') && a < p.Size()
    requires forall c :: 0 <= c < p.Size() && c != a ==> s'.slots[c].deferred == s.slots[c].deferred
    requires Placed(p, s, Holding(s, a)) && Places(s, a) == Bit(s.slots[a].deferred > 0)
    requires s'.slots[a].deferred >= s.slots[a].deferred
    ensures Placed(p, s', Holding(s', a)) && Places(s', a) == Bit(s'.slots[a].deferred > 0)
  {
    forall c | 0 <= c < p.Size() && c != a ensures Places(s', c) == Places(s, c) {
      assert InPool(s', c) == InPool(s, c);
    }
    assert InPool(s', a) == InPool(s, a);
  }

  lemma DeferOneCore(p: Plan, s: State, a: nat, q: nat)
    requires Core(p, s) && a < p.Size() && q < p.Size() && q != a && !s.slots[q].done
    requires p.g.actions[a].kind.Discovered?
    ensures SameFlights(s, DeferOne(s, a, q)) && Core(p, DeferOne(s, a, q))
  {
    var s' := DeferOne(s, a, q);
    assert Shape(p, s');
    SameFlightsKeep(p, s, s');
    DeferOneCounted(p, s, a, q);
    DeferOneWaiters(p, s, a, q);
  }

  lemma DeferOneWaiters(p: Plan, s: State, a: nat, q: nat)
    requires Shape(p, s) && OnlyDiscoveredWait(p, s) && a < p.Size() && q < p.Size() && q != a && !s.slots[q].done
    requires p.g.actions[a].kind.Discovered? && Shape(p, DeferOne(s, a, q))
    ensures OnlyDiscoveredWait(p, DeferOne(s, a, q))
  {
    var s' := DeferOne(s, a, q);
    forall b, c | 0 <= b < p.Size() && c in s'.slots[b].waiters
      ensures c < p.Size() && p.g.actions[c].kind.Discovered?
    {
      assert c in s.slots[b].waiters || c == a;
    }
  }

  lemma DeferOneCounted(p: Plan, s: State, a: nat, q: nat)
    requires Shape(p, s) && Counted(p, s) && a < p.Size() && q < p.Size() && q != a && !s.slots[q].done
    requires Open(p.g, DeferOne(s, a, q).slots) == Open(p.g, s.slots) && Shape(p, DeferOne(s, a, q))
    ensures Counted(p, DeferOne(s, a, q))
  {
    var s' := DeferOne(s, a, q);
    forall c | 0 <= c < p.Size()
      ensures s'.slots[c].pending == Occurrences(p.g.actions[c].consumes, Open(p.g, s'.slots))
      ensures s'.slots[c].deferred == WaitSum(s'.slots, c)
    {
      DeferOneCounts(p, s, a, q, c);
    }
  }

  lemma DeferOneKeeps(p: Plan, s: State, a: nat, q: nat)
    requires a < p.Size() && q < p.Size() && Shape(p, s) && Deferring(p, s, a) && p.g.actions[a].kind.Discovered?
    ensures var s' := DeferOne(s, a, q);
      && SameFlights(s, s') && Shape(p, s') && Deferring(p, s', a)
      && s'.slots[a].deferred == s.slots[a].deferred + Bit(q != a && !s.slots[q].done)
  {
    var s' := DeferOne(s, a, q);
    if q != a && !s.slots[q].done {
      DeferOneCore(p, s, a, q);
      DeferringPlaces(p, s, s', a);
    }
  }

  /** The invariant while `a` is being deferred. */
  ghost predicate Deferring(p: Plan, s: State, a: nat)
    requires Shape(p, s) && a < p.Size()
  {
    Inv(p, s, Holding(s, a)) && Places(s, a) == Bit(s.slots[a].deferred > 0)
  }

  lemma {:induction false} DeferAllKeeps(p: Plan, s: State, a: nat, hits: seq<nat>)
    requires a < p.Size() && Below(hits, p.Size()) && Shape(p, s) && Deferring(p, s, a)
    requires p.g.actions[a].kind.Discovered?
    ensures Shape(p, DeferAll(s, a, hits)) && Deferring(p, DeferAll(s, a, hits), a)
  {
    if hits != [] {
      var front, last := hits[..|hits| - 1], hits[|hits| - 1];
      DeferAllKeeps(p, s, a, front);
      DeferOneKeeps(p, DeferAll(s, a, front), a, last);
    }
  }

  lemma {:induction false} DeferAllFlights(s: State, a: nat, hits: seq<nat>)
    requires a < |s.slots| && Below(hits, |s.slots|)
    ensures SameFlights(s, DeferAll(s, a, hits))
  {
    if hits != [] {
      var front, last := hits[..|hits| - 1], hits[|hits| - 1];
      DeferAllFlights(s, a, front);
      var mid := DeferAll(s, a, front);
      assert SameFlights(mid, DeferOne(mid, a, last));
      SameFlightsJoin(s, mid, DeferOne(mid, a, last));
    }
  }

  /** A round of deferrals ends without waiting for anyone exactly when everyone is done. */
  lemma {:induction false} DeferAllWaits(s: State, a: nat, hits: seq<nat>)
    requires a < |s.slots| && Below(hits, |s.slots|) && s.slots[a].deferred == 0
    ensures DeferAll(s, a, hits).slots[a].deferred == 0 <==> forall q :: q in hits && q != a ==> s.slots[q].done
  {
    if hits != [] {
      var front, last := hits[..|hits| - 1], hits[|hits| - 1];
      DeferAllWaits(s, a, front);
      DeferAllFlights(s, a, front);
      assert DeferAll(s, a, front).slots[last].done == s.slots[last].done;
      assert forall q :: q in hits <==> q in front || q == last by {
        assert hits == front + [last];
      }
    }
  }

  lemma SameFlightsJoin(s: State, mid: State, s': State)
    requires SameFlights(s, mid) && SameFlights(mid, s')
    ensures SameFlights(s, s')
  {
  }

  /** Deferring leaves what is known of the flight as it was. */
  lemma DeferringKeepsFlown(p: Plan, s: State, s': State, a: nat)
    requires Shape(p, s) && Shape(p, s') && SameFlights(s, s') && a < p.Size() && Flown(p, s, a)
    ensures Flown(p, s', a)
  {
  }

  // ---------------------------------------------------------------- finishing

  lemma {:induction false} ToldOnce(g: Graph, outputs: seq<nat>, c: nat)
    requires Wf(g) && Below(outputs, |g.artifacts|) && NoDup(outputs) && c < |g.actions|
    ensures multiset(Consumers(g, outputs))[c] == Occurrences(g.actions[c].consumes, set t | t in outputs)
  {
    var consumes := g.actions[c].consumes;
    if outputs == [] {
      OccurrencesPositive(consumes, set t | t in outputs);
    } else {
      var front, last := outputs[..|outputs| - 1], outputs[|outputs| - 1];
      ToldOnce(g, front, c);
      var all, some := set t | t in outputs, set t | t in front;
      assert outputs == front + [last];
      assert last !in front;
      assert all == some + {last} && all - {last} == some;
      OccurrencesSplit(consumes, all, {last});
      OccurrencesOfOne(consumes, last);
    }
  }

  lemma {:induction false} ConsumersInRange(g: Graph, outputs: seq<nat>)
    requires Wf(g) && Below(outputs, |g.artifacts|)
    ensures Below(Consumers(g, outputs), |g.actions|)
  {
    if outputs != [] {
      ConsumersInRange(g, outputs[..|outputs| - 1]);
    }
  }

  /** The told consumers are exactly the slots that were waiting for an output of `a`. */
  lemma ToldIsOwed(p: Plan, s: State, a: nat, c: nat)
    requires Core(p, s) && a < p.Size() && c < p.Size() && !s.slots[a].done
    ensures var told := Consumers(p.g, p.g.actions[a].produces);
      && multiset(told)[c] <= s.slots[c].pending
      && s.slots[c].pending - multiset(told)[c]
         == Occurrences(p.g.actions[c].consumes, Open(p.g, s.slots) - set t | t in p.g.actions[a].produces)
  {
    var outputs := set t | t in p.g.actions[a].produces;
    assert outputs <= Open(p.g, s.slots) by {
      forall t | t in outputs ensures t in Open(p.g, s.slots) {
        assert t in p.g.actions[a].produces;
        assert p.g.artifacts[t].producer == Some(a);
      }
    }
    ToldOnce(p.g, p.g.actions[a].produces, c);
    OccurrencesSplit(p.g.actions[c].consumes, Open(p.g, s.slots), outputs);
  }

  lemma WaitersAreCounted(p: Plan, s: State, a: nat, c: nat)
    requires Core(p, s) && a < p.Size() && c < p.Size() && !s.slots[a].done
    ensures multiset(s.slots[a].waiters)[c] <= s.slots[c].deferred
  {
    WaitSumUpdate(s.slots, a, s.slots[a], c);
  }

  lemma {:induction false} MultisetOfDistinct(xs: seq<nat>, c: nat)
    requires NoDup(xs)
    ensures multiset(xs)[c] == Bit(c in xs)
  {
    if xs != [] {
      var front, last := xs[..|xs| - 1], xs[|xs| - 1];
      MultisetOfDistinct(front, c);
      assert xs == front + [last];
    }
  }

  lemma FinishOpens(p: Plan, s: State, a: nat, s': State)
    requires Core(p, s) && a < p.Size() && Finished(p, s, a, s')
    ensures Open(p.g, s'.slots) == Open(p.g, s.slots) - set t | t in p.g.actions[a].produces
  {
    assert forall q | 0 <= q < p.Size() :: s'.slots[q].done == (q == a || s.slots[q].done);
    forall t | 0 <= t < |p.g.artifacts|
      ensures t in p.g.actions[a].produces <==> p.g.artifacts[t].producer == Some(a)
    {
    }
  }

  lemma FinishWaits(p: Plan, s: State, a: nat, s': State, c: nat)
    requires Core(p, s) && a < p.Size() && c < p.Size() && !s.slots[a].done && Finished(p, s, a, s')
    ensures WaitSum(s'.slots, c) == WaitSum(s.slots, c) - multiset(s.slots[a].waiters)[c]
  {
    var marked := s.slots[a := s.slots[a].(done := true)];
    WaitSumUpdate(s.slots, a, marked[a], c);
    assert forall q | 0 <= q < p.Size() :: Waits(marked[q], c) == Waits(s'.slots[q], c);
    WaitSumSame(marked, s'.slots, c);
  }

  lemma FinishCounts(p: Plan, s: State, a: nat, s': State)
    requires Core(p, s) && a < p.Size() && !s.slots[a].done && Finished(p, s, a, s') && Shape(p, s')
    ensures Counted(p, s')
  {
    FinishOpens(p, s, a, s');
    forall c | 0 <= c < p.Size()
      ensures s'.slots[c].pending == Occurrences(p.g.actions[c].consumes, Open(p.g, s'.slots))
      ensures s'.slots[c].deferred == WaitSum(s'.slots, c)
    {
      ToldIsOwed(p, s, a, c);
      FinishWaits(p, s, a, s', c);
    }
  }

  lemma FinishPlaces(p: Plan, s: State, a: nat, s': State)
    requires Inv(p, s, {a}) && a < p.Size() && Finished(p, s, a, s') && Shape(p, s')
    ensures Placed(p, s', {})
  {
    var woken :| s'.ready == s.ready + woken && NoDup(woken) && forall c :: c in woken <==> Woken(s, s', c);
    assert Places(s, a) == 0;
    forall c | 0 <= c < p.Size() ensures Places(s', c) == if c == a then 1 else Places(s, c) {
      ToldIsOwed(p, s, a, c);
      WaitersAreCounted(p, s, a, c);
      assert Places(s, c) <= 1;
      FinishPlace(s, a, s', c, woken);
    }
  }

  /** One action's place before and after. */
  lemma FinishPlace(s: State, a: nat, s': State, c: nat, woken: seq<nat>)
    requires MarkedDone(s, a, s') && a < |s.slots| && c < |s.slots| && Places(s, a) == 0 && Places(s, c) <= 1
    requires s'.ready == s.ready + woken && NoDup(woken) && (c in woken <==> Woken(s, s', c))
    requires s'.slots[c].pending <= s.slots[c].pending && s'.slots[c].deferred <= s.slots[c].deferred
    ensures Places(s', c) == if c == a then 1 else Places(s, c)
  {
    MultisetOfDistinct(woken, c);
    assert multiset(s'.ready)[c] == multiset(s.ready)[c] + Bit(Woken(s, s', c));
    assert InPool(s', c) == InPool(s, c);
  }

  lemma FinishLookups(p: Plan, s: State, a: nat, s': State, b: nat)
    requires Shape(p, s) && a < p.Size() && b < p.Size() && !s.slots[a].done && MarkedDone(s, a, s') && Shape(p, s')
    requires LookupSafe(p, s, b) && s.slots[a].flight.phase.Idle?
    ensures LookupSafe(p, s', b)
  {
    assert s'.slots[b].flight == s.slots[b].flight && s'.slots[b].parked == s.slots[b].parked;
    assert forall q | 0 <= q < p.Size() && s.slots[q].done ::
      s'.slots[q].done && s'.slots[q].doneEpoch == s.slots[q].doneEpoch && s'.slots[q].wrote == s.slots[q].wrote;
  }

  lemma FinishReads(p: Plan, s: State, a: nat, s': State, b: nat)
    requires Shape(p, s) && Timed(p, s) && a < p.Size() && b < p.Size() && !s.slots[a].done && MarkedDone(s, a, s')
    requires Shape(p, s')
    requires s.slots[a].flight.phase.Idle? && HitsRecorded(p, s, b) && Grounded(p, s, b)
    requires p.g.actions[a].kind.Discovered? ==>
      Settled(p, s, a, Basis(s, a), s.slots[a].flight.epoch) && (s.slots[a].flight.hit ==> s.table[a].Some?)
    ensures HitsRecorded(p, s', b) && Grounded(p, s', b)
  {
    assert s'.slots[b].flight == s.slots[b].flight && s'.slots[b].done == (b == a || s.slots[b].done);
    assert Basis(s', b) == Basis(s, b);
    assert forall q | 0 <= q < p.Size() && s.slots[q].done ::
      s'.slots[q].done && s'.slots[q].doneEpoch == s.slots[q].doneEpoch && s'.slots[q].wrote == s.slots[q].wrote;
  }

  lemma FinishTimes(p: Plan, s: State, a: nat, s': State)
    requires Shape(p, s) && Timed(p, s) && a < p.Size() && !s.slots[a].done && s.slots[a].flight.epoch <= s.completed
    requires MarkedDone(s, a, s') && Shape(p, s')
    ensures Timed(p, s')
  {
    assert forall b | 0 <= b < p.Size() :: s'.slots[b].flight == s.slots[b].flight;
    assert forall b | 0 <= b < p.Size() :: s'.slots[b].done == (b == a || s.slots[b].done);
    assert Pool(s') == Pool(s);
    assert a !in Done(s) && Done(s') == Done(s) + {a};
  }

  lemma FinishParks(p: Plan, s: State, a: nat, s': State)
    requires Core(p, s) && a < p.Size() && !s.slots[a].parked && Finished(p, s, a, s') && Shape(p, s')
    ensures Parked(p, s')
  {
  }

  lemma FinishInputs(p: Plan, s: State, a: nat, s': State)
    requires Shape(p, s) && InputsFirst(p, s) && a < p.Size() && !s.slots[a].done && InputsBefore(p, s, a)
    requires MarkedDone(s, a, s') && Shape(p, s')
    ensures InputsFirst(p, s')
  {
    forall b: nat, t: nat, q: nat | b < p.Size() && t in p.g.actions[b].consumes && p.g.Produces(q, t)
      && Started(s'.slots[b])
      ensures q < p.Size() && s'.slots[q].done && s'.slots[q].doneEpoch <= s'.slots[b].flight.epoch
    {
      assert s'.slots[b].flight == s.slots[b].flight;
      assert b != a ==> Started(s.slots[b]);
      assert q < p.Size() && s.slots[q].done && s.slots[q].doneEpoch <= s.slots[b].flight.epoch;
    }
  }

  /** Finishing an action whose reads were final keeps the invariant. */
  lemma FinishKeeps(p: Plan, s: State, a: nat, s': State)
    requires Inv(p, s, {a}) && a < p.Size() && Flown(p, s, a) && !s.slots[a].parked && Finished(p, s, a, s')
    requires Shape(p, s')
    requires p.g.actions[a].kind.Discovered? ==> Settled(p, s, a, Basis(s, a), s.slots[a].flight.epoch)
    ensures Inv(p, s', {})
  {
    assert Places(s, a) == 0;
    FinishCounts(p, s, a, s');
    FinishPlaces(p, s, a, s');
    FinishTimes(p, s, a, s');
    FinishParks(p, s, a, s');
    FinishInputs(p, s, a, s');
    forall b | 0 <= b < p.Size() ensures LookupSafe(p, s', b) && HitsRecorded(p, s', b) && Grounded(p, s', b) {
      assert LookupSafe(p, s, b) && HitsRecorded(p, s, b) && Grounded(p, s, b);
      FinishLookups(p, s, a, s', b);
      FinishReads(p, s, a, s', b);
    }
  }
}
