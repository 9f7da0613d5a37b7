/** The scheduler itself (source/core/dag/run.c:939-1256). Whatever a worker or the outside world
    decides (when a job starts, what it brings back, whether a commit fails, whether the run is
    cancelled) is chosen freely. */
module Run {
  import opened Paths
  import opened Dag
  import opened Observations
  import opened Targets
  import opened Rings
  import opened Scheduler
  import opened Steps
  import opened Finishing
  import opened Progress
  import opened Stall

  // ---------------------------------------------------------------- telling consumers and waiters

  /** `c` was waiting for something and no longer is. */
  predicate RanOut(before: seq<Slot>, after: seq<Slot>, c: nat) {
    && c < |before| == |after|
    && ((before[c].pending > 0 && after[c].pending == 0) || (before[c].deferred > 0 && after[c].deferred == 0))
  }

  /** The slot of `c` while `a` is being finished, after `told` consumers and `served` waiters. */
  ghost predicate Lowered(before: State, a: nat, pending: nat, deferred: nat, slot: Slot, c: nat)
    requires c < |before.slots|
  {
    && slot.pending == before.slots[c].pending - pending
    && slot.deferred == before.slots[c].deferred - deferred
    && slot == before.slots[c].(pending := slot.pending, deferred := slot.deferred,
         done := c == a || before.slots[c].done,
         doneEpoch := if c == a then before.completed + 1 else before.slots[c].doneEpoch)
  }

  /** Part way through finishing `a`: the consumers in `told` and the waiters in `served` have been
      counted down, and `woken` are the ones that became ready. */
  ghost predicate Telling(before: State, a: nat, told: seq<nat>, served: seq<nat>, woken: seq<nat>, slots: seq<Slot>) {
    && |slots| == |before.slots|
    && (forall c | 0 <= c < |slots| :: Lowered(before, a, multiset(told)[c], multiset(served)[c], slots[c], c))
    && NoDup(woken)
    && (forall c :: c in woken <==> RanOut(before.slots, slots, c))
  }

  predicate OneQueueEach(s: State) {
    forall c :: 0 <= c < |s.slots| ==> s.slots[c].pending == 0 || s.slots[c].deferred == 0
  }

  /** Counting down one consumer. */
  lemma TellOne(before: State, a: nat, told: seq<nat>, served: seq<nat>, woken: seq<nat>, slots: seq<Slot>, c: nat)
    requires Telling(before, a, told, served, woken, slots) && OneQueueEach(before)
    requires c < |slots| && multiset(told)[c] < before.slots[c].pending
    ensures slots[c].pending > 0
    ensures var left := slots[c].pending - 1;
      Telling(before, a, told + [c], served, if left == 0 then woken + [c] else woken,
              slots[c := slots[c].(pending := left)])
  {
    assert Lowered(before, a, multiset(told)[c], multiset(served)[c], slots[c], c);
    var left := slots[c].pending - 1;
    assert forall d: nat :: multiset(told + [c])[d] == multiset(told)[d] + if d == c then 1 else 0;
    WokenGrows(before, woken, slots, slots[c := slots[c].(pending := left)], c, left == 0);
  }

  /** Counting down one waiter. */
  lemma ServeOne(before: State, a: nat, told: seq<nat>, served: seq<nat>, woken: seq<nat>, slots: seq<Slot>, c: nat)
    requires Telling(before, a, told, served, woken, slots) && OneQueueEach(before)
    requires c < |slots| && multiset(served)[c] < before.slots[c].deferred
    ensures slots[c].deferred > 0
    ensures var left := slots[c].deferred - 1;
      Telling(before, a, told, served + [c], if left == 0 then woken + [c] else woken,
              slots[c := slots[c].(deferred := left)])
  {
    assert Lowered(before, a, multiset(told)[c], multiset(served)[c], slots[c], c);
    var left := slots[c].deferred - 1;
    assert forall d: nat :: multiset(served + [c])[d] == multiset(served)[d] + if d == c then 1 else 0;
    WokenGrows(before, woken, slots, slots[c := slots[c].(deferred := left)], c, left == 0);
  }

  lemma WokenGrows(before: State, woken: seq<nat>, slots: seq<Slot>, after: seq<Slot>, c: nat, last: bool)
    requires NoDup(woken) && (forall d :: d in woken <==> RanOut(before.slots, slots, d))
    requires c < |slots| == |after| == |before.slots| && after == slots[c := after[c]]
    requires !RanOut(before.slots, slots, c) && (RanOut(before.slots, after, c) <==> last)
    ensures var woken' := if last then woken + [c] else woken;
      NoDup(woken') && forall d :: d in woken' <==> RanOut(before.slots, after, d)
  {
    var woken' := if last then woken + [c] else woken;
    forall d ensures d in woken' <==> RanOut(before.slots, after, d) {
      assert d in woken' <==> d in woken || (last && d == c);
    }
  }

  lemma TakeNext<T>(s: seq<T>, k: nat)
    requires k < |s|
    ensures s[..k + 1] == s[..k] + [s[k]] && s[..k + 1][..k] == s[..k] && s[..|s|] == s
  {
  }

  lemma StartTelling(before: State, a: nat)
    requires a < |before.slots|
    ensures Telling(before, a, [], [], [],
                    before.slots[a := before.slots[a].(done := true, doneEpoch := before.completed + 1)])
  {
  }

  /** How often an element still to come has been seen is below how often it occurs. */
  lemma PrefixCount(all: seq<nat>, k: nat)
    requires k < |all|
    ensures multiset(all[..k])[all[k]] < multiset(all)[all[k]]
  {
    assert all == all[..k] + ([all[k]] + all[k + 1..]);
  }

  lemma {:induction false} ConsumersGrow(g: Graph, outputs: seq<nat>, k: nat)
    requires Below(outputs, |g.artifacts|) && k <= |outputs|
    ensures exists rest :: Consumers(g, outputs) == Consumers(g, outputs[..k]) + rest
    decreases |outputs| - k
  {
    if k < |outputs| {
      ConsumersGrow(g, outputs, k + 1);
      assert outputs[..k + 1][..k] == outputs[..k];
      var rest :| Consumers(g, outputs) == Consumers(g, outputs[..k + 1]) + rest;
      assert Consumers(g, outputs) == Consumers(g, outputs[..k]) + (g.artifacts[outputs[k]].consumers + rest);
    } else {
      assert outputs[..k] == outputs;
      assert Consumers(g, outputs) == Consumers(g, outputs[..k]) + [];
    }
  }

  lemma NextConsumer(g: Graph, outputs: seq<nat>, k: nat, j: nat)
    requires Below(outputs, |g.artifacts|) && k < |outputs| && j < |g.artifacts[outputs[k]].consumers|
    ensures var all, c := Consumers(g, outputs), g.artifacts[outputs[k]].consumers[j];
      multiset(Consumers(g, outputs[..k]) + g.artifacts[outputs[k]].consumers[..j])[c] < multiset(all)[c]
  {
    var all, consumers := Consumers(g, outputs), g.artifacts[outputs[k]].consumers;
    ConsumersGrow(g, outputs, k + 1);
    TakeNext(outputs, k);
    var rest :| all == Consumers(g, outputs[..k + 1]) + rest;
    PartCount(Consumers(g, outputs[..k]), consumers, rest, j);
  }

  lemma PartCount(front: seq<nat>, part: seq<nat>, rest: seq<nat>, j: nat)
    requires j < |part|
    ensures multiset(front + part[..j])[part[j]] < multiset(front + part + rest)[part[j]]
  {
    var all := front + part + rest;
    var at := |front| + j;
    assert all[..at] == front + part[..j] && all[at] == part[j];
    PrefixCount(all, at);
  }

  lemma QueuesAreSeparate(p: Plan, s: State, a: nat)
    requires Inv(p, s, {a}) && a < p.Size()
    ensures OneQueueEach(s) && !s.slots[a].done
  {
    assert Places(s, a) == 0;
    forall c | 0 <= c < |s.slots| ensures s.slots[c].pending == 0 || s.slots[c].deferred == 0 {
      assert Places(s, c) <= 1;
    }
  }

  /** No count can be driven below zero while `a` finishes. */
  ghost predicate Tellable(p: Plan, before: State, a: nat) {
    && IdsInRange(p.g) && Shape(p, before) && a < p.Size() && OneQueueEach(before) && !before.slots[a].done
    && (forall c :: 0 <= c < p.Size() ==>
         multiset(Consumers(p.g, p.g.actions[a].produces))[c] <= before.slots[c].pending)
    && (forall c :: 0 <= c < p.Size() ==> multiset(before.slots[a].waiters)[c] <= before.slots[c].deferred)
  }

  /** The next consumer is still owed a tell. */
  lemma OwedNext(p: Plan, before: State, a: nat, pi: nat, cj: nat)
    requires Tellable(p, before, a) && pi < |p.g.actions[a].produces|
    requires cj < |p.g.artifacts[p.g.actions[a].produces[pi]].consumers|
    ensures var outputs := p.g.actions[a].produces;
      var consumers := p.g.artifacts[outputs[pi]].consumers;
      && consumers[cj] < p.Size()
      && multiset(Consumers(p.g, outputs[..pi]) + consumers[..cj])[consumers[cj]] < before.slots[consumers[cj]].pending
  {
    NextConsumer(p.g, p.g.actions[a].produces, pi, cj);
  }

  lemma InvTellable(p: Plan, before: State, a: nat)
    requires Inv(p, before, {a}) && a < p.Size()
    ensures Tellable(p, before, a)
  {
    QueuesAreSeparate(p, before, a);
    forall c | 0 <= c < p.Size()
      ensures multiset(Consumers(p.g, p.g.actions[a].produces))[c] <= before.slots[c].pending
      ensures multiset(before.slots[a].waiters)[c] <= before.slots[c].deferred
    {
      ToldIsOwed(p, before, a, c);
      WaitersAreCounted(p, before, a, c);
    }
  }

  /** Telling everyone is finishing. */
  lemma TellingDone(p: Plan, before: State, a: nat, woken: seq<nat>, after: State)
    requires p.Sound() && Shape(p, before) && a < p.Size()
    requires Telling(before, a, Consumers(p.g, p.g.actions[a].produces), before.slots[a].waiters, woken, after.slots)
    requires after == before.(slots := after.slots, ready := before.ready + woken, completed := before.completed + 1)
    ensures Finished(p, before, a, after) && Shape(p, after)
  {
    forall c ensures RanOut(before.slots, after.slots, c) <==> Woken(before, after, c) {
    }
    assert Below(woken, p.Size()) by {
      forall i | 0 <= i < |woken| ensures woken[i] < p.Size() {
        assert woken[i] in woken;
      }
    }
  }

  // ---------------------------------------------------------------- deferring behind observations

  /** Some action in `hits` finished after `epoch` and changed something. */
  predicate StaleAmong(s: State, a: nat, hits: seq<nat>, epoch: nat) {
    hits != [] && (StaleAmong(s, a, hits[..|hits| - 1], epoch) || Stale(s, a, hits[|hits| - 1], epoch))
  }

  lemma {:induction false} StaleAmongMeans(s: State, a: nat, hits: seq<nat>, epoch: nat)
    ensures StaleAmong(s, a, hits, epoch) <==> exists q :: q in hits && Stale(s, a, q, epoch)
  {
    if hits != [] {
      var front, last := hits[..|hits| - 1], hits[|hits| - 1];
      StaleAmongMeans(s, a, front, epoch);
      assert forall q :: q in hits <==> q in front || q == last by {
        assert hits == front + [last];
      }
    }
  }

  /** Some action the observations lead to finished after `epoch` and changed something. */
  predicate AnyStale(p: Plan, s: State, a: nat, rows: seq<Obs>, epoch: nat) {
    StaleAmong(s, a, p.Leads(rows), epoch)
  }

  /** A round of deferrals over observed rows either leaves `a` waiting, or finds everyone done. */
  lemma DeferKeeps(p: Plan, s: State, a: nat, rows: seq<Obs>)
    requires Inv(p, s, {a}) && a < p.Size() && p.g.actions[a].kind.Discovered? && Below(p.Leads(rows), p.Size())
    ensures var s' := DeferAll(s, a, p.Leads(rows));
      && Shape(p, s') && SameFlights(s, s') && Budget(s') == Budget(s)
      && (if s'.slots[a].deferred > 0 then Inv(p, s', {})
          else Inv(p, s', {a}) && forall q :: q in p.Leads(rows) && q != a ==> q < p.Size() && s'.slots[q].done)
  {
    assert Places(s, a) == 0;
    var hits := p.Leads(rows);
    var s' := DeferAll(s, a, hits);
    DeferAllKeeps(p, s, a, hits);
    DeferAllFlights(s, a, hits);
    DeferAllWaits(s, a, hits);
    DeferBudget(s, s');
    forall q | q in hits ensures q < p.Size() && s'.slots[q].done == s.slots[q].done {
    }
  }

  /** Everyone is done and nobody is stale: what was read is final. */
  lemma NotStaleIsSettled(p: Plan, s: State, a: nat, rows: seq<Obs>, epoch: nat)
    requires Shape(p, s) && (forall q :: q in p.Leads(rows) && q != a ==> q < p.Size() && s.slots[q].done)
    requires !AnyStale(p, s, a, rows, epoch)
    ensures Settled(p, s, a, rows, epoch)
  {
    StaleAmongMeans(s, a, p.Leads(rows), epoch);
    forall q | q in p.Leads(rows) && q != a ensures s.slots[q].doneEpoch <= epoch || !s.slots[q].wrote {
      assert !Stale(s, a, q, epoch);
    }
  }

  /** Nothing has finished later than now: the assertion in `run_dispatch` holds. */
  lemma NeverStaleNow(p: Plan, s: State, a: nat, rows: seq<Obs>)
    requires Inv(p, s, {a})
    ensures !AnyStale(p, s, a, rows, s.completed)
  {
    StaleAmongMeans(s, a, p.Leads(rows), s.completed);
  }

  /** An action the main thread holds is in none of the five places. */
  lemma HeldIsIdle(p: Plan, s: State, a: nat)
    requires Inv(p, s, {a}) && a < p.Size()
    ensures s.slots[a].pending == 0 && s.slots[a].deferred == 0 && !s.slots[a].done
  {
    assert Places(s, a) == 0;
  }

  /** Only a flight that began before the latest completion can be stale. */
  lemma StaleIsPast(p: Plan, s: State, a: nat, rows: seq<Obs>, epoch: nat)
    requires Inv(p, s, {a}) && epoch <= s.completed
    ensures AnyStale(p, s, a, rows, epoch) ==> epoch < s.completed
  {
    StaleAmongMeans(s, a, p.Leads(rows), epoch);
  }

  /** What an execution read stays final while it is recorded. */
  lemma CommittedIsSettled(p: Plan, s: State, a: nat, wrote: bool)
    requires Inv(p, s, {a}) && a < p.Size() && Shape(p, Committed(p, s, a, wrote)) && !s.slots[a].flight.hit
    requires p.g.actions[a].kind.Discovered? ==> Settled(p, s, a, s.slots[a].flight.rows, s.slots[a].flight.epoch)
    ensures var s' := Committed(p, s, a, wrote);
      p.g.actions[a].kind.Discovered? ==> Settled(p, s', a, Basis(s', a), s'.slots[a].flight.epoch)
  {
    var s' := Committed(p, s, a, wrote);
    assert forall q | 0 <= q < p.Size() && q != a :: s'.slots[q] == s.slots[q];
  }

  lemma ParkedStaysSettled(p: Plan, s: State, a: nat, parked: bool)
    requires Shape(p, s) && a < p.Size() && Shape(p, SetParked(s, a, parked))
    ensures forall rows, epoch :: Settled(p, s, a, rows, epoch) ==> Settled(p, SetParked(s, a, parked), a, rows, epoch)
  {
    assert forall q | 0 <= q < p.Size() && q != a :: SetParked(s, a, parked).slots[q] == s.slots[q];
  }

  lemma FailBudget(s: State)
    ensures Budget(s.(err := true)) == Budget(s)
  {
    TotalSame(s, s.(err := true), |s.slots|);
  }

  lemma StaleSame(p: Plan, s: State, s': State, a: nat, rows: seq<Obs>, epoch: nat)
    requires SameFlights(s, s')
    ensures AnyStale(p, s, a, rows, epoch) == AnyStale(p, s', a, rows, epoch)
  {
    StaleAmongSame(s, s', a, p.Leads(rows), epoch);
  }

  lemma {:induction false} StaleAmongSame(s: State, s': State, a: nat, hits: seq<nat>, epoch: nat)
    requires SameFlights(s, s')
    ensures StaleAmong(s, a, hits, epoch) == StaleAmong(s', a, hits, epoch)
  {
    if hits != [] {
      StaleAmongSame(s, s', a, hits[..|hits| - 1], epoch);
    }
  }

  /** `s` is what offering `hits`, one after the other, makes of `before`. */
  ghost predicate WalkedTo(s: State, before: State, a: nat, hits: seq<nat>, epoch: nat, requeue: bool) {
    && a < |before.slots| == |s.slots| && Below(hits, |before.slots|)
    && s == DeferAll(before, a, hits)
    && requeue == StaleAmong(before, a, hits, epoch)
  }

  lemma WalkNext(s: State, before: State, a: nat, hits: seq<nat>, q: nat, epoch: nat, requeue: bool)
    requires WalkedTo(s, before, a, hits, epoch, requeue) && q < |before.slots|
    ensures WalkedTo(DeferOne(s, a, q), before, a, hits + [q], epoch, requeue || Stale(s, a, q, epoch))
  {
    assert (hits + [q])[..|hits|] == hits;
    DeferAllFlights(before, a, hits);
    assert Stale(before, a, q, epoch) <==> Stale(s, a, q, epoch);
  }

  lemma JoinNext(hits: seq<nat>, list: seq<nat>, k: nat)
    requires k < |list|
    ensures (hits + list[..k]) + [list[k]] == hits + list[..k + 1]
  {
  }

  /** Everything filed below an enumerated directory is an action. */
  lemma FiledAreActions(p: Plan, o: Obs)
    requires IdsInRange(p.g) && Indexes(p.g, p.ix) && o.kind.ObsEnumeration? && o.path.root !in p.g.pinned
    ensures Below(At(p.ix.below, o.path), p.Size())
  {
    var list := At(p.ix.below, o.path);
    forall i | 0 <= i < |list| ensures list[i] < p.Size() {
      assert list[i] in list;
      VisitInRange(p.g, p.ix, o, list[i]);
    }
  }

  lemma JoinVisit(p: Plan, hits: seq<nat>, o: Obs)
    ensures hits + Visit(p.ix, p.g.pinned, o)
      == if o.path.root in p.g.pinned then hits
         else ((hits + Exact(p.ix, o)) + TreesAbove(p.ix, Ancestors(o.path))) + Beneath(p.ix, o)
    ensures !o.kind.ObsEnumeration? ==>
      forall xs: seq<nat> {:trigger xs + Beneath(p.ix, o)} :: xs + Beneath(p.ix, o) == xs
  {
    JoinFour(hits, Exact(p.ix, o), TreesAbove(p.ix, Ancestors(o.path)), Beneath(p.ix, o));
  }

  lemma JoinFour(a: seq<nat>, b: seq<nat>, c: seq<nat>, d: seq<nat>)
    ensures a + (b + c + d) == ((a + b) + c) + d && a + [] == a
  {
  }

  function TreeAt(ix: Index, dir: Path): seq<nat> {
    if dir in ix.byPath && ix.byPath[dir].kind.Tree? then [ix.byPath[dir].producer] else []
  }

  lemma TreeStep(ix: Index, hits: seq<nat>, dirs: seq<Path>, dir: Path)
    ensures hits + TreesAbove(ix, dirs + [dir]) == (hits + TreesAbove(ix, dirs)) + TreeAt(ix, dir)
  {
    assert (dirs + [dir])[..|dirs|] == dirs;
  }

  ghost predicate TreesInRange(p: Plan, dirs: seq<Path>, n: nat) {
    forall dir :: dir in dirs && dir in p.ix.byPath && p.ix.byPath[dir].kind.Tree? ==> p.ix.byPath[dir].producer < n
  }

  lemma TreesAreActions(p: Plan, dirs: seq<Path>)
    requires IdsInRange(p.g) && Indexes(p.g, p.ix)
    ensures TreesInRange(p, dirs, p.Size())
  {
    forall dir | dir in dirs && dir in p.ix.byPath && p.ix.byPath[dir].kind.Tree?
      ensures p.ix.byPath[dir].producer < p.Size()
    {
      var t :| 0 <= t < |p.g.artifacts| && p.g.Located(t) && p.g.artifacts[t].path == dir;
    }
  }

  lemma {:induction false} LeadsBelow(p: Plan, rows: seq<Obs>)
    requires p.Sound()
    ensures Below(p.Leads(rows), p.Size())
  {
    forall i | 0 <= i < |p.Leads(rows)| ensures p.Leads(rows)[i] < p.Size() {
      LeadsInRange(p, rows, p.Leads(rows)[i]);
    }
  }

  lemma PoolMember(p: Plan, s: State)
    requires Inv(p, s, {}) && s.inFlight > 0
    ensures exists a :: 0 <= a < p.Size() && !s.slots[a].flight.phase.Idle?
  {
    assert |Pool(s)| > 0;
    var a :| a in Pool(s);
  }

  lemma Verdict(p: Plan, s: State)
    requires Inv(p, s, {}) && Quiet(s)
    ensures s.completed != p.Size() <==> exists ring :: Ring(Blocks(p, s), ring)
    ensures NothingDiscovered(p.g) ==> (s.completed != p.Size() <==> exists ring :: Ring(FeedEdges(p.g), ring))
  {
    StalledIsRing(p, s);
    if NothingDiscovered(p.g) {
      StaticCompletes(p, s);
    }
  }

  // ---------------------------------------------------------------- seeding

  function Fresh(pending: nat): Slot {
    Slot(pending, 0, false, false, 0, [], Flight(Idle, 0, false, false, []), false)
  }

  function Invalid(valid: seq<bool>): set<nat> {
    set t | 0 <= t < |valid| && !valid[t]
  }

  lemma {:induction false} NobodyWaits(slots: seq<Slot>, c: nat)
    requires forall q :: 0 <= q < |slots| ==> slots[q].waiters == []
    ensures WaitSum(slots, c) == 0
  {
    if slots != [] {
      NobodyWaits(slots[..|slots| - 1], c);
    }
  }

  /** The first `n` actions have been seeded. */
  ghost predicate SeededUpTo(p: Plan, valid: seq<bool>, slots: seq<Slot>, ready: seq<nat>, n: nat) {
    && |slots| == n <= p.Size() && Below(ready, n) && NoDup(ready)
    && (forall a :: 0 <= a < n ==> slots[a] == Fresh(Occurrences(p.g.actions[a].consumes, Invalid(valid))))
    && (forall a :: 0 <= a < n ==> (a in ready <==> slots[a].pending == 0))
  }

  lemma SeedNext(p: Plan, valid: seq<bool>, slots: seq<Slot>, ready: seq<nat>, n: nat, pending: nat)
    requires SeededUpTo(p, valid, slots, ready, n) && n < p.Size()
    requires pending == Occurrences(p.g.actions[n].consumes, Invalid(valid))
    ensures SeededUpTo(p, valid, slots + [Fresh(pending)], if pending == 0 then ready + [n] else ready, n + 1)
  {
    var slots', ready' := slots + [Fresh(pending)], if pending == 0 then ready + [n] else ready;
    forall a: nat | a < n + 1
      ensures slots'[a] == Fresh(Occurrences(p.g.actions[a].consumes, Invalid(valid)))
      ensures a in ready' <==> slots'[a].pending == 0
    {
      if a < n {
        assert slots'[a] == slots[a];
        assert a in ready' <==> a in ready;
      } else {
        assert n !in ready;
      }
    }
  }

  /** A run that has just been seeded. */
  ghost predicate Seeded(p: Plan, valid: seq<bool>, s: State) {
    && |s.table| == p.Size() && |valid| == |p.g.artifacts|
    && (forall t :: 0 <= t < |valid| ==> (valid[t] <==> p.g.artifacts[t].producer.None?))
    && s.completed == 0 && s.inFlight == 0 && !s.err && SeededUpTo(p, valid, s.slots, s.ready, p.Size())
  }

  lemma SeedCounts(p: Plan, valid: seq<bool>, s: State)
    requires p.Sound() && Seeded(p, valid, s) && Shape(p, s)
    ensures Counted(p, s)
  {
    assert Open(p.g, s.slots) == Invalid(valid);
    forall c | 0 <= c < p.Size() ensures WaitSum(s.slots, c) == 0 {
      NobodyWaits(s.slots, c);
    }
  }

  lemma SeedPlaces(p: Plan, valid: seq<bool>, s: State)
    requires Seeded(p, valid, s) && Shape(p, s)
    ensures Placed(p, s, {})
  {
    forall c | 0 <= c < p.Size() ensures Places(s, c) == 1 {
      MultisetOfDistinct(s.ready, c);
    }
  }

  lemma SeedKeeps(p: Plan, valid: seq<bool>, s: State)
    requires p.Sound() && Seeded(p, valid, s)
    ensures Inv(p, s, {}) && Budget(s) < MostTurns(p.Size())
  {
    SeedShape(p, valid, s);
    SeedCounts(p, valid, s);
    SeedPlaces(p, valid, s);
    SeedIdle(p, valid, s);
    InitialTotal(s, p.Size());
  }

  lemma SeedShape(p: Plan, valid: seq<bool>, s: State)
    requires Seeded(p, valid, s)
    ensures Shape(p, s) && Timed(p, s) && forall a :: 0 <= a < |s.slots| ==> s.slots[a].flight.phase.Idle?
  {
    assert forall a | 0 <= a < p.Size() :: s.slots[a] == Fresh(s.slots[a].pending);
    assert Pool(s) == {} && Done(s) == {};
  }

  /** Nothing has started, nothing is done, nobody waits. */
  lemma SeedIdle(p: Plan, valid: seq<bool>, s: State)
    requires Seeded(p, valid, s) && Shape(p, s)
    ensures Parked(p, s) && InputsFirst(p, s) && ReadsSafe(p, s) && OnlyDiscoveredWait(p, s)
  {
    assert forall a | 0 <= a < p.Size() :: s.slots[a] == Fresh(s.slots[a].pending);
    assert forall a: nat | a < p.Size() :: !Started(s.slots[a]) && !InPool(s, a);
  }

  // ---------------------------------------------------------------- what the main thread does

  /** A commit: the flight is recorded, then the action is finished unless its outputs cannot be settled. */
  ghost predicate CommitResult(p: Plan, before: State, a: nat, wrote: bool, fails: bool, after: State) {
    && p.Sound() && Shape(p, before) && a < p.Size()
    && var mid := Committed(p, before, a, wrote);
       if fails then after == mid.(err := true) else Shape(p, mid) && Finished(p, mid, a, after)
  }

  /** Waiting for what `rows` lead to. */
  ghost predicate Deferred(p: Plan, before: State, a: nat, rows: seq<Obs>, after: State) {
    && Shape(p, before) && a < p.Size() && Below(p.Leads(rows), p.Size())
    && after == DeferAll(before, a, p.Leads(rows))
  }

  /** An execution is parked behind an unfinished producer, thrown away because it read something that
      changed, or committed. */
  ghost predicate Judged(p: Plan, before: State, a: nat, wrote: bool, fails: bool, after: State) {
    && a < |before.slots|
    && var flight := before.slots[a].flight;
       exists mid :: Deferred(p, before, a, flight.rows, mid)
         && if mid.slots[a].deferred > 0 then after == SetParked(mid, a, true)
            else if AnyStale(p, before, a, flight.rows, flight.epoch) then after == Requeue(mid, a)
            else CommitResult(p, mid, a, wrote, fails, after)
  }

  /** A flight starts once nothing the recorded set leads to is unfinished. */
  ghost predicate Launched(p: Plan, before: State, a: nat, after: State) {
    && Shape(p, before) && a < p.Size()
    && if p.g.actions[a].kind.Discovered? && before.table[a].Some? then
         exists mid :: Deferred(p, before, a, before.table[a].value, mid)
           && if mid.slots[a].deferred > 0 then after == mid else after == Submit(mid, a)
       else after == Submit(before, a)
  }

  /** `run_dispatch`: a parked execution is judged again first. */
  ghost predicate Dispatched(p: Plan, before: State, a: nat, wrote: bool, fails: bool, after: State) {
    && a < |before.slots|
    && if before.slots[a].parked then
         var flight := before.slots[a].flight;
         exists mid :: Deferred(p, before, a, flight.rows, mid)
           && if mid.slots[a].deferred > 0 then after == mid
              else if AnyStale(p, before, a, flight.rows, flight.epoch)
                then Launched(p, SetParked(mid, a, false), a, after)
              else CommitResult(p, SetParked(mid, a, false), a, wrote, fails, after)
       else Launched(p, before, a, after)
  }

  /** `run_complete`. */
  ghost predicate Completed(p: Plan, before: State, a: nat, wrote: bool, fails: bool, after: State) {
    && p.Sound() && Shape(p, before) && a < p.Size() && before.inFlight > 0
    && var mid := Take(before, a);
       if before.err || before.slots[a].flight.failed then after == mid.(err := true)
       else if before.slots[a].flight.hit then Shape(p, mid) && Finished(p, mid, a, after)
       else if p.g.actions[a].kind.Discovered? then Judged(p, mid, a, wrote, fails, after)
       else CommitResult(p, mid, a, wrote, fails, after)
  }

  /** Workers have started and brought back jobs. */
  ghost predicate Between(before: State, after: State) {
    && after == before.(slots := after.slots) && |after.slots| == |before.slots|
    && forall b | 0 <= b < |after.slots| ::
         && after.slots[b] == before.slots[b].(flight := after.slots[b].flight, wrote := after.slots[b].wrote)
         && (before.slots[b].flight.phase.Idle? <==> after.slots[b].flight.phase.Idle?)
         && (before.slots[b].flight.phase.Idle? ==> after.slots[b] == before.slots[b])
  }

  lemma BetweenJoin(a: State, b: State, c: State)
    requires Between(a, b) && Between(b, c)
    ensures Between(a, c)
  {
  }

  lemma ErrStays(s: State, s': State)
    requires Between(s, s')
    ensures s'.err == s.err && s'.ready == s.ready && s'.inFlight == s.inFlight
  {
  }

  lemma BetweenSteps(s: State, a: nat, hit: bool, failed: bool, rows: seq<Obs>, wrote: bool)
    requires a < |s.slots|
    ensures Between(s, s)
    ensures !s.slots[a].flight.phase.Idle? ==>
      Between(s, Start(s, a)) && Between(s, Land(s, a, hit, failed, rows, wrote))
  {
  }

  /** What the outside world decides about one turn: whether the run is cancelled before it, and what a
      commit comes to, should there be one. */
  datatype Outside = Outside(cancelled: bool, wrote: bool, fails: bool)

  function Cancelled(s: State, cancelled: bool): State {
    s.(err := s.err || cancelled)
  }

  /** One turn of the main loop: a returned job is handled, or the newest ready action dispatched. */
  ghost predicate TookTurn(p: Plan, before: State, mid: State, a: nat, o: Outside, after: State) {
    && Between(Cancelled(before, o.cancelled), mid)
    && (|| Completed(p, mid, a, o.wrote, o.fails, after)
        || (!mid.err && mid.ready != [] && a == mid.ready[|mid.ready| - 1]
            && Dispatched(p, Pop(mid), a, o.wrote, o.fails, after)))
  }

  // ---------------------------------------------------------------- why a run ends with an error

  /** The error a run reports: the first one. */
  datatype Cause = Cancellation(turn: nat) | JobFailed(action: nat) | CommitFailed(action: nat, turn: nat)

  /** The last flight of `a` is over, and `a` is not done. */
  ghost predicate Dropped(s: State, a: nat, failed: bool) {
    a < |s.slots| && s.slots[a].flight.phase.Idle? && !s.slots[a].done && s.slots[a].flight.failed == failed
  }

  /** What there is to show for an error: a turn before which the run was cancelled, an action whose last
      job came back failed, or one whose execution went well and whose commit failed. */
  ghost predicate Grounds(cause: Cause, turns: nat, outside: nat -> Outside, s: State) {
    match cause
    case Cancellation(turn) => turn < turns && outside(turn).cancelled
    case JobFailed(a) => Dropped(s, a, true)
    case CommitFailed(a, turn) => turn < turns && outside(turn).fails && Dropped(s, a, false) && !s.slots[a].flight.hit
  }

  /** A job that came back failed has made the run fail. */
  ghost predicate FailuresCount(s: State) {
    forall a :: 0 <= a < |s.slots| && s.slots[a].flight.phase.Idle? && s.slots[a].flight.failed ==> s.err
  }

  /** What has been found out about the error of a run, if it failed since the first turn. */
  ghost predicate Explained(s: State, cause: Option<Cause>, turns: nat, outside: nat -> Outside) {
    FailuresCount(s) && (cause.Some? ==> s.err && Grounds(cause.value, turns, outside, s))
  }

  lemma NothingExplained(s: State, outside: nat -> Outside)
    requires FailuresCount(s)
    ensures Explained(s, None, 0, outside)
  {
  }

  lemma ExplainedMeans(s: State, cause: Option<Cause>, turns: nat, outside: nat -> Outside)
    requires Explained(s, cause, turns, outside)
    ensures cause.Some? ==> Grounds(cause.value, turns, outside, s)
    ensures !s.err ==> forall a :: !Dropped(s, a, true)
  {
  }

  lemma StillExplained(s: State, s': State, cause: Option<Cause>, turns: nat, outside: nat -> Outside)
    requires Between(s, s') && Explained(s, cause, turns, outside)
    ensures Explained(s', cause, turns, outside)
  {
  }

  /** The next turn, before which the run may be cancelled. The first error is kept. */
  lemma NextExplained(s: State, known: Option<Cause>, turn: nat, outside: nat -> Outside)
    requires Explained(s, known, turn, outside)
    ensures var cause := if !s.err && outside(turn).cancelled then Some(Cancellation(turn)) else known;
      Explained(Cancelled(s, outside(turn).cancelled), cause, turn + 1, outside)
  {
  }

  /** A commit fails the run only if it is meant to. */
  lemma CommitCause(p: Plan, s: State, a: nat, wrote: bool, fails: bool, s': State)
    requires CommitResult(p, s, a, wrote, fails, s') && FailuresCount(s) && !s.err && Dropped(s, a, false)
    ensures FailuresCount(s') && (s'.err ==> fails && Dropped(s', a, false))
    ensures s'.slots[a].flight == s.slots[a].flight
  {
    var mid := Committed(p, s, a, wrote);
    assert forall b | 0 <= b < |s.slots| :: mid.slots[b].flight == s.slots[b].flight;
    if !fails {
      assert MarkedDone(mid, a, s');
      assert forall b | 0 <= b < |s'.slots| :: s'.slots[b].flight == mid.slots[b].flight;
    }
  }

  lemma DeferredCause(p: Plan, s: State, a: nat, rows: seq<Obs>, s': State)
    requires Deferred(p, s, a, rows, s')
    ensures SameFlights(s, s')
  {
    DeferAllFlights(s, a, p.Leads(rows));
  }

  lemma JudgedCause(p: Plan, s: State, a: nat, wrote: bool, fails: bool, s': State)
    requires Judged(p, s, a, wrote, fails, s') && FailuresCount(s) && !s.err && Dropped(s, a, false)
    ensures FailuresCount(s') && |s'.slots| == |s.slots|
    ensures s'.err ==> fails && Dropped(s', a, false) && s'.slots[a].flight == s.slots[a].flight
  {
    var rows := s.slots[a].flight.rows;
    var mid :| Deferred(p, s, a, rows, mid)
      && if mid.slots[a].deferred > 0 then s' == SetParked(mid, a, true)
         else if AnyStale(p, s, a, rows, s.slots[a].flight.epoch) then s' == Requeue(mid, a)
         else CommitResult(p, mid, a, wrote, fails, s');
    DeferredCause(p, s, a, rows, mid);
    if mid.slots[a].deferred == 0 && !AnyStale(p, s, a, rows, s.slots[a].flight.epoch) {
      CommitCause(p, mid, a, wrote, fails, s');
    }
  }

  /** Handling a returned job fails the run only for that job, or for its commit. */
  lemma CompletedCause(p: Plan, s: State, a: nat, wrote: bool, fails: bool, s': State)
    requires Completed(p, s, a, wrote, fails, s') && FailuresCount(s) && !s.err && !s.slots[a].done
    ensures FailuresCount(s')
    ensures s'.err ==> Dropped(s', a, true) || (fails && Dropped(s', a, false) && !s'.slots[a].flight.hit)
  {
    var mid := Take(s, a);
    assert forall b | 0 <= b < |s.slots| && b != a :: mid.slots[b] == s.slots[b];
    if !s.slots[a].flight.failed {
      if s.slots[a].flight.hit {
        assert MarkedDone(mid, a, s');
        assert forall b | 0 <= b < |s'.slots| :: s'.slots[b].flight == mid.slots[b].flight;
      } else if p.g.actions[a].kind.Discovered? {
        JudgedCause(p, mid, a, wrote, fails, s');
      } else {
        CommitCause(p, mid, a, wrote, fails, s');
      }
    }
  }

  lemma LaunchedCause(p: Plan, s: State, a: nat, s': State)
    requires Launched(p, s, a, s') && FailuresCount(s) && !s.err
    ensures FailuresCount(s') && !s'.err
  {
    if p.g.actions[a].kind.Discovered? && s.table[a].Some? {
      var mid :| Deferred(p, s, a, s.table[a].value, mid)
        && if mid.slots[a].deferred > 0 then s' == mid else s' == Submit(mid, a);
      DeferredCause(p, s, a, s.table[a].value, mid);
      SubmitCause(mid, a);
    } else {
      SubmitCause(s, a);
    }
  }

  lemma SubmitCause(s: State, a: nat)
    requires a < |s.slots| && FailuresCount(s)
    ensures FailuresCount(Submit(s, a))
  {
    assert forall b | 0 <= b < |s.slots| && b != a :: Submit(s, a).slots[b] == s.slots[b];
  }

  /** A returned job is of an unfinished action. */
  lemma LandedIsOpen(p: Plan, s: State, a: nat)
    requires Inv(p, s, {}) && a < p.Size() && s.slots[a].flight.phase.Landed?
    ensures !s.slots[a].done
  {
    assert Places(s, a) <= 1;
  }

  lemma ReadyIsOpen(p: Plan, s: State, a: nat)
    requires Inv(p, s, {}) && FailuresCount(s) && !s.err && a in s.ready
    ensures a < p.Size() && (s.slots[a].parked ==> Dropped(Pop(s), a, false) && !s.slots[a].flight.hit)
    ensures FailuresCount(Pop(s))
  {
    assert Parked(p, s);
  }

  lemma InvCounts(p: Plan, s: State)
    requires Inv(p, s, {})
    ensures Shape(p, s) && s.completed == |Done(s)|
  {
  }

  /** Dispatching fails the run only for the commit of a parked execution. */
  lemma DispatchedCause(p: Plan, s: State, a: nat, wrote: bool, fails: bool, s': State)
    requires Dispatched(p, s, a, wrote, fails, s') && FailuresCount(s) && !s.err
    requires s.slots[a].parked ==> Dropped(s, a, false) && !s.slots[a].flight.hit
    ensures FailuresCount(s')
    ensures s'.err ==> fails && Dropped(s', a, false) && !s'.slots[a].flight.hit
  {
    if s.slots[a].parked {
      var rows, epoch := s.slots[a].flight.rows, s.slots[a].flight.epoch;
      var mid :| Deferred(p, s, a, rows, mid)
        && if mid.slots[a].deferred > 0 then s' == mid
           else if AnyStale(p, s, a, rows, epoch) then Launched(p, SetParked(mid, a, false), a, s')
           else CommitResult(p, SetParked(mid, a, false), a, wrote, fails, s');
      DeferredCause(p, s, a, rows, mid);
      var free := SetParked(mid, a, false);
      assert forall b | 0 <= b < |free.slots| :: free.slots[b].flight == s.slots[b].flight;
      if mid.slots[a].deferred == 0 {
        if AnyStale(p, s, a, rows, epoch) {
          LaunchedCause(p, free, a, s');
        } else {
          CommitCause(p, free, a, wrote, fails, s');
        }
      }
    } else {
      LaunchedCause(p, s, a, s');
    }
  }

  lemma NothingNew(p: Plan, s: State, a: nat, o: Outside, s': State, known: Option<Cause>, turns: nat,
                   outside: nat -> Outside)
    requires Completed(p, s, a, o.wrote, o.fails, s') && s.err && !s.slots[a].flight.phase.Idle?
    requires Explained(s, known, turns, outside)
    ensures s'.err && Explained(s', known, turns, outside)
  {
    FailedStays(p, s, a, o.wrote, o.fails, s', if known.Some? then known.value else JobFailed(0), turns, outside);
  }

  /** Once the run has failed, whoever was dropped stays dropped. */
  lemma FailedStays(p: Plan, s: State, a: nat, wrote: bool, fails: bool, s': State, cause: Cause, turns: nat,
                    outside: nat -> Outside)
    requires Completed(p, s, a, wrote, fails, s') && s.err && !s.slots[a].flight.phase.Idle? && FailuresCount(s)
    ensures s'.err && FailuresCount(s')
    ensures Grounds(cause, turns, outside, s) ==> Grounds(cause, turns, outside, s')
  {
    assert forall b | 0 <= b < |s.slots| && b != a :: s'.slots[b] == s.slots[b];
  }

  // ---------------------------------------------------------------- the run

  class Run {
    const plan: Plan
    var slots: seq<Slot>
    var ready: seq<nat>
    var completed: nat
    var inFlight: nat
    var err: bool
    var table: seq<Option<seq<Obs>>>

    ghost function S(): State
      reads this
    {
      State(slots, ready, completed, inFlight, err, table)
    }

    ghost predicate InTelling(before: State, a: nat, told: seq<nat>, served: seq<nat>, woken: seq<nat>)
      reads this
    {
      && Telling(before, a, told, served, woken, slots)
      && S() == before.(slots := slots, ready := before.ready + woken, completed := before.completed + 1)
    }

    /** One consumer of a finished output. */
    method CountDownPending(ghost before: State, ghost a: nat, ghost told: seq<nat>, ghost woken: seq<nat>, c: nat)
      returns (ghost woken': seq<nat>)
      requires OneQueueEach(before) && InTelling(before, a, told, [], woken)
      requires c < |slots| && multiset(told)[c] < before.slots[c].pending
      modifies this`slots, this`ready
      ensures InTelling(before, a, told + [c], [], woken')
    {
      TellOne(before, a, told, [], woken, slots, c);
      woken' := woken;
      if slots[c].pending > 0 {
        slots := slots[c := slots[c].(pending := slots[c].pending - 1)];
        if slots[c].pending == 0 {
          ready := ready + [c];
          woken' := woken + [c];
        }
      }
    }

    /** One waiter of a finished action. */
    method CountDownDeferred(ghost before: State, ghost a: nat, ghost told: seq<nat>, ghost served: seq<nat>,
                             ghost woken: seq<nat>, c: nat)
      returns (ghost woken': seq<nat>)
      requires OneQueueEach(before) && InTelling(before, a, told, served, woken)
      requires c < |slots| && multiset(served)[c] < before.slots[c].deferred
      modifies this`slots, this`ready
      ensures InTelling(before, a, told, served + [c], woken')
    {
      ServeOne(before, a, told, served, woken, slots, c);
      woken' := woken;
      if slots[c].deferred > 0 {
        slots := slots[c := slots[c].(deferred := slots[c].deferred - 1)];
        if slots[c].deferred == 0 {
          ready := ready + [c];
          woken' := woken + [c];
        }
      }
    }

    method TellConsumersOf(ghost before: State, a: nat, pi: nat, ghost told: seq<nat>, ghost woken: seq<nat>)
      returns (ghost told': seq<nat>, ghost woken': seq<nat>)
      requires Tellable(plan, before, a) && pi < |plan.g.actions[a].produces|
      requires told == Consumers(plan.g, plan.g.actions[a].produces[..pi])
      requires InTelling(before, a, told, [], woken)
      modifies this`slots, this`ready
      ensures told' == Consumers(plan.g, plan.g.actions[a].produces[..pi + 1])
      ensures InTelling(before, a, told', [], woken')
    {
      told', woken' := told, woken;
      var outputs := plan.g.actions[a].produces;
      var consumers := plan.g.artifacts[outputs[pi]].consumers;
      for cj := 0 to |consumers|
        invariant told' == told + consumers[..cj]
        invariant InTelling(before, a, told', [], woken')
      {
        OwedNext(plan, before, a, pi, cj);
        JoinNext(told, consumers, cj);
        woken' := CountDownPending(before, a, told', woken', consumers[cj]);
        told' := told' + [consumers[cj]];
      }
      TakeNext(outputs, pi);
      assert consumers[..|consumers|] == consumers;
    }

    method ServeWaiters(ghost before: State, a: nat, ghost told: seq<nat>, ghost woken: seq<nat>)
      returns (ghost woken': seq<nat>)
      requires Tellable(plan, before, a)
      requires InTelling(before, a, told, [], woken)
      modifies this`slots, this`ready
      ensures InTelling(before, a, told, before.slots[a].waiters, woken')
    {
      woken' := woken;
      var waiters := slots[a].waiters;
      assert waiters == before.slots[a].waiters;
      ghost var served: seq<nat> := [];
      for wi := 0 to |waiters|
        invariant served == waiters[..wi]
        invariant InTelling(before, a, told, served, woken')
      {
        PrefixCount(waiters, wi);
        woken' := CountDownDeferred(before, a, told, served, woken', waiters[wi]);
        served := served + [waiters[wi]];
        TakeNext(waiters, wi);
      }
      assert waiters[..|waiters|] == waiters;
    }

    /** The two loops of `finish_action`. */
    method TellEveryone(ghost before: State, a: nat) returns (ghost woken: seq<nat>)
      requires Tellable(plan, before, a) && InTelling(before, a, [], [], [])
      modifies this`slots, this`ready
      ensures InTelling(before, a, Consumers(plan.g, plan.g.actions[a].produces), before.slots[a].waiters, woken)
    {
      woken := [];
      ghost var told: seq<nat> := [];
      for pi := 0 to |plan.g.actions[a].produces|
        invariant told == Consumers(plan.g, plan.g.actions[a].produces[..pi])
        invariant InTelling(before, a, told, [], woken)
      {
        told, woken := TellConsumersOf(before, a, pi, told, woken);
      }
      assert plan.g.actions[a].produces[..|plan.g.actions[a].produces|] == plan.g.actions[a].produces;
      woken := ServeWaiters(before, a, told, woken);
    }

    method MarkDone(a: nat)
      requires a < |slots|
      modifies this`slots, this`completed
      ensures InTelling(old(S()), a, [], [], [])
    {
      StartTelling(S(), a);
      assert ready == ready + [];
      completed := completed + 1;
      slots := slots[a := slots[a].(done := true, doneEpoch := completed)];
    }

    /** `finish_action`. The guards of the source never skip anyone. */
    method FinishAction(a: nat)
      requires Inv(plan, S(), {a}) && a < plan.Size()
      modifies this`slots, this`ready, this`completed
      ensures Finished(plan, old(S()), a, S()) && Shape(plan, S())
    {
      ghost var before := S();
      InvTellable(plan, before, a);
      MarkDone(a);
      ghost var woken := TellEveryone(before, a);
      TellingDone(plan, before, a, woken, S());
    }

    /** Where the walk has got to. */
    ghost predicate Walked(before: State, a: nat, hits: seq<nat>, epoch: nat, requeue: bool)
      reads this
    {
      WalkedTo(S(), before, a, hits, epoch, requeue)
    }

    /** `defer_producer`. */
    method DeferProducer(a: nat, q: nat, epoch: nat, requeue: bool) returns (requeue': bool)
      requires a < |slots| && q < |slots|
      modifies this`slots
      ensures S() == DeferOne(old(S()), a, q)
      ensures requeue' <==> requeue || Stale(old(S()), a, q, epoch)
    {
      if q == a {
        return requeue;
      }
      if slots[q].done {
        return requeue || (slots[q].doneEpoch > epoch && slots[q].wrote);
      }
      slots := slots[q := slots[q].(waiters := slots[q].waiters + [a])];
      slots := slots[a := slots[a].(deferred := slots[a].deferred + 1)];
      return requeue;
    }

    /** One directory above an observed path. */
    method DeferTreeAt(ghost before: State, a: nat, ghost hits: seq<nat>, dir: Path, epoch: nat, requeue: bool)
      returns (requeue': bool)
      requires Walked(before, a, hits, epoch, requeue)
      requires dir in plan.ix.byPath && plan.ix.byPath[dir].kind.Tree? ==> plan.ix.byPath[dir].producer < |before.slots|
      modifies this`slots
      ensures Walked(before, a, hits + TreeAt(plan.ix, dir), epoch, requeue')
    {
      requeue' := requeue;
      assert hits + [] == hits;
      if dir in plan.ix.byPath && plan.ix.byPath[dir].kind.Tree? {
        WalkNext(S(), before, a, hits, plan.ix.byPath[dir].producer, epoch, requeue);
        requeue' := DeferProducer(a, plan.ix.byPath[dir].producer, epoch, requeue);
      }
    }

    /** The climb over the directories above an observed path. */
    method DeferTrees(ghost before: State, a: nat, ghost hits: seq<nat>, o: Obs, epoch: nat, requeue: bool)
      returns (requeue': bool)
      requires TreesInRange(plan, Ancestors(o.path), |before.slots|)
      requires Walked(before, a, hits, epoch, requeue)
      modifies this`slots
      ensures Walked(before, a, hits + TreesAbove(plan.ix, Ancestors(o.path)), epoch, requeue')
    {
      requeue' := requeue;
      var dir := Up(o.path);
      ghost var dirs: seq<Path>, all: seq<nat> := [], hits;
      assert hits + TreesAbove(plan.ix, dirs) == hits;
      while dir.Some?
        invariant Climbing(o.path, dirs, dir)
        invariant all == hits + TreesAbove(plan.ix, dirs)
        invariant Walked(before, a, all, epoch, requeue')
        decreases if dir.Some? then |dir.value.sub| + 1 else 0
      {
        ClimbStep(o.path, dirs, dir.value);
        TreeStep(plan.ix, hits, dirs, dir.value);
        requeue' := DeferTreeAt(before, a, all, dir.value, epoch, requeue');
        all := all + TreeAt(plan.ix, dir.value);
        dirs := dirs + [dir.value];
        dir := Up(dir.value);
      }
      assert dirs == Ancestors(o.path);
    }

    /** The outputs filed below an enumerated directory. */
    method DeferBelow(ghost before: State, a: nat, ghost hits: seq<nat>, o: Obs, epoch: nat, requeue: bool)
      returns (requeue': bool)
      requires IdsInRange(plan.g) && Indexes(plan.g, plan.ix) && |before.slots| == plan.Size()
      requires o.path.root !in plan.g.pinned && o.kind.ObsEnumeration?
      requires Walked(before, a, hits, epoch, requeue)
      modifies this`slots
      ensures Walked(before, a, hits + At(plan.ix.below, o.path), epoch, requeue')
    {
      requeue' := requeue;
      assert hits + [] == hits;
      if o.path in plan.ix.below {
        var list := plan.ix.below[o.path];
        FiledAreActions(plan, o);
        for bi := 0 to |list|
          invariant Walked(before, a, hits + list[..bi], epoch, requeue')
        {
          WalkNext(S(), before, a, hits + list[..bi], list[bi], epoch, requeue');
          JoinNext(hits, list, bi);
          requeue' := DeferProducer(a, list[bi], epoch, requeue');
        }
        assert list[..|list|] == list;
      }
    }

    /** The output at the observed path itself. */
    method DeferExact(ghost before: State, a: nat, ghost hits: seq<nat>, o: Obs, epoch: nat, requeue: bool)
      returns (requeue': bool)
      requires IdsInRange(plan.g) && Indexes(plan.g, plan.ix) && |before.slots| == plan.Size()
      requires o.path.root !in plan.g.pinned
      requires Walked(before, a, hits, epoch, requeue)
      modifies this`slots
      ensures Walked(before, a, hits + Exact(plan.ix, o), epoch, requeue')
    {
      requeue' := requeue;
      assert hits + [] == hits;
      if o.path in plan.ix.byPath {
        VisitInRange(plan.g, plan.ix, o, plan.ix.byPath[o.path].producer);
        WalkNext(S(), before, a, hits, plan.ix.byPath[o.path].producer, epoch, requeue);
        requeue' := DeferProducer(a, plan.ix.byPath[o.path].producer, epoch, requeue);
      }
    }

    /** One observed row. */
    method DeferObservation(ghost before: State, a: nat, ghost hits: seq<nat>, o: Obs, epoch: nat, requeue: bool)
      returns (requeue': bool)
      requires IdsInRange(plan.g) && Indexes(plan.g, plan.ix) && |before.slots| == plan.Size()
      requires Walked(before, a, hits, epoch, requeue)
      modifies this`slots
      ensures Walked(before, a, hits + Visit(plan.ix, plan.g.pinned, o), epoch, requeue')
    {
      requeue' := requeue;
      JoinVisit(plan, hits, o);
      if o.path.root in plan.g.pinned {
        return;
      }
      ghost var exact := hits + Exact(plan.ix, o);
      requeue' := DeferExact(before, a, hits, o, epoch, requeue');
      TreesAreActions(plan, Ancestors(o.path));
      requeue' := DeferTrees(before, a, exact, o, epoch, requeue');
      if o.kind.ObsEnumeration? {
        requeue' := DeferBelow(before, a, exact + TreesAbove(plan.ix, Ancestors(o.path)), o, epoch, requeue');
      }
    }

    /** `defer_observations`: offers everything the rows lead to, in order. */
    method DeferObservations(a: nat, rows: seq<Obs>, epoch: nat) returns (blocked: bool, requeue: bool)
      requires IdsInRange(plan.g) && Indexes(plan.g, plan.ix) && |slots| == plan.Size() && a < plan.Size()
      modifies this`slots
      ensures Below(plan.Leads(rows), plan.Size()) && S() == DeferAll(old(S()), a, plan.Leads(rows))
      ensures blocked <==> slots[a].deferred > 0
      ensures requeue <==> AnyStale(plan, old(S()), a, rows, epoch)
    {
      requeue := false;
      ghost var before := S();
      ghost var hits: seq<nat> := [];
      for it := 0 to |rows|
        invariant hits == plan.Leads(rows[..it])
        invariant Walked(before, a, hits, epoch, requeue)
      {
        requeue := DeferObservation(before, a, hits, rows[it], epoch, requeue);
        hits := hits + Visit(plan.ix, plan.g.pinned, rows[it]);
        TakeNext(rows, it);
      }
      assert rows[..|rows|] == rows;
      blocked := slots[a].deferred > 0;
    }

    /** `run_commit_flight`: only called when everything the action read is final. */
    method CommitFlight(a: nat, wrote: bool, fails: bool)
      requires Inv(plan, S(), {a}) && a < plan.Size() && Flown(plan, S(), a) && !slots[a].parked && !slots[a].flight.hit
      requires plan.g.actions[a].kind.Discovered? ==> Settled(plan, S(), a, slots[a].flight.rows, slots[a].flight.epoch)
      modifies this
      ensures CommitResult(plan, old(S()), a, wrote, fails, S())
      ensures Inv(plan, S(), {}) && Budget(S()) <= old(Budget(S()))
    {
      ghost var s0 := S();
      RecordFlight(a, wrote);
      if fails {
        FailKeeps(plan, S(), {a});
        FailBudget(S());
        err := true;
        return;
      }
      CommittedIsSettled(plan, s0, a, wrote);
      FinishChecked(a);
    }

    /** `commit`: the outputs are settled, and the recorded set keeps the unpinned rows. */
    method RecordFlight(a: nat, wrote: bool)
      requires Inv(plan, S(), {a}) && a < plan.Size() && Flown(plan, S(), a) && !slots[a].flight.hit
      modifies this`slots, this`table
      ensures S() == Committed(plan, old(S()), a, wrote) && Inv(plan, S(), {a}) && Flown(plan, S(), a)
      ensures Budget(S()) == old(Budget(S()))
    {
      HeldIsIdle(plan, S(), a);
      CommittedKeeps(plan, S(), a, wrote);
      FlagBudget(plan, S(), Committed(plan, S(), a, wrote), a);
      if plan.g.actions[a].kind.Discovered? {
        table := table[a := Some(Unpinned(plan.g.pinned, slots[a].flight.rows))];
      }
      slots := slots[a := slots[a].(wrote := wrote)];
    }

    method FinishChecked(a: nat)
      requires Inv(plan, S(), {a}) && a < plan.Size() && Flown(plan, S(), a) && !slots[a].parked
      requires plan.g.actions[a].kind.Discovered? ==> Settled(plan, S(), a, Basis(S(), a), slots[a].flight.epoch)
      modifies this`slots, this`ready, this`completed
      ensures Finished(plan, old(S()), a, S())
      ensures Inv(plan, S(), {}) && Budget(S()) <= old(Budget(S()))
    {
      ghost var before := S();
      FinishAction(a);
      FinishKeeps(plan, before, a, S());
      FinishBudget(before, a, S());
    }

    /** `defer_observations` on an action the main thread holds: either it waits now, or everyone its
        rows lead to is done. */
    method CheckReads(a: nat, rows: seq<Obs>, epoch: nat) returns (blocked: bool, requeue: bool)
      requires Inv(plan, S(), {a}) && a < plan.Size() && plan.g.actions[a].kind.Discovered?
      modifies this`slots
      ensures Shape(plan, S()) && SameFlights(old(S()), S()) && Budget(S()) == old(Budget(S()))
      ensures Deferred(plan, old(S()), a, rows, S()) && (blocked <==> slots[a].deferred > 0)
      ensures blocked ==> Inv(plan, S(), {})
      ensures !blocked ==> Inv(plan, S(), {a})
      ensures !blocked ==> forall q :: q in plan.Leads(rows) && q != a ==> q < plan.Size() && slots[q].done
      ensures !blocked && !requeue ==> Settled(plan, S(), a, rows, epoch)
      ensures requeue <==> AnyStale(plan, old(S()), a, rows, epoch)
    {
      ghost var s0 := S();
      LeadsBelow(plan, rows);
      DeferKeeps(plan, s0, a, rows);
      blocked, requeue := DeferObservations(a, rows, epoch);
      StaleSame(plan, s0, S(), a, rows, epoch);
      if !blocked && !requeue {
        NotStaleIsSettled(plan, S(), a, rows, epoch);
      }
    }

    /** `run_dispatch`, for an action just taken off the ready stack. `wrote` and `fails` are what a
        commit comes to, should there be one. */
    method Dispatch(a: nat, wrote: bool, fails: bool)
      requires Inv(plan, S(), {a}) && a < plan.Size() && (slots[a].parked ==> Flown(plan, S(), a))
      modifies this
      ensures Dispatched(plan, old(S()), a, wrote, fails, S())
      ensures Inv(plan, S(), {}) && Budget(S()) <= old(Budget(S())) + 1
    {
      if slots[a].parked {
        DispatchParked(a, wrote, fails);
      } else {
        Launch(a);
      }
    }

    method DispatchParked(a: nat, wrote: bool, fails: bool)
      requires Inv(plan, S(), {a}) && a < plan.Size() && slots[a].parked && Flown(plan, S(), a)
      modifies this
      ensures Dispatched(plan, old(S()), a, wrote, fails, S())
      ensures Inv(plan, S(), {}) && Budget(S()) <= old(Budget(S())) + 1
    {
      ghost var s0 := S();
      var rows, epoch := slots[a].flight.rows, slots[a].flight.epoch;
      var blocked, requeue := CheckReads(a, rows, epoch);
      ghost var mid := S();
      if blocked {
        assert Dispatched(plan, s0, a, wrote, fails, mid);
        return;
      }
      DeferringKeepsFlown(plan, s0, mid, a);
      Unpark(a);
      if requeue {
        Launch(a);
      } else {
        CommitFlight(a, wrote, fails);
      }
      assert Deferred(plan, s0, a, rows, mid);
    }

    method Unpark(a: nat)
      requires Inv(plan, S(), {a}) && a < plan.Size() && Flown(plan, S(), a)
      modifies this`slots
      ensures S() == SetParked(old(S()), a, false) && Inv(plan, S(), {a}) && Flown(plan, S(), a)
      ensures Budget(S()) == old(Budget(S()))
      ensures forall rows, epoch :: old(Settled(plan, S(), a, rows, epoch)) ==> Settled(plan, S(), a, rows, epoch)
    {
      HeldIsIdle(plan, S(), a);
      ParkKeeps(plan, S(), a, false, {a});
      FlagBudget(plan, S(), SetParked(S(), a, false), a);
      ParkedStaysSettled(plan, S(), a, false);
      slots := slots[a := slots[a].(parked := false)];
    }

    /** The second half of `run_dispatch`: wait for whatever the recorded set leads to, then fly. */
    method Launch(a: nat)
      requires Inv(plan, S(), {a}) && a < plan.Size() && !slots[a].parked
      modifies this
      ensures Launched(plan, old(S()), a, S())
      ensures Inv(plan, S(), {}) && Budget(S()) <= old(Budget(S())) + 1
    {
      if plan.g.actions[a].kind.Discovered? && table[a].Some? {
        ghost var s0, rows := S(), table[a].value;
        NeverStaleNow(plan, S(), a, table[a].value);
        var blocked, requeue := CheckReads(a, table[a].value, completed);
        ghost var mid := S();
        assert Deferred(plan, s0, a, rows, mid);
        if blocked {
          return;
        }
        assert !requeue;
        Fly(a);
        assert Launched(plan, s0, a, S());
        return;
      }
      Fly(a);
    }

    /** Hands the action to the thread pool. */
    method Fly(a: nat)
      requires Inv(plan, S(), {a}) && a < plan.Size() && !slots[a].parked
      requires Cleared(plan, S(), a)
      modifies this`slots, this`inFlight
      ensures S() == Submit(old(S()), a) && Inv(plan, S(), {}) && Budget(S()) == old(Budget(S())) + 1
    {
      SubmitKeeps(plan, S(), a);
      SubmitBudget(plan, S(), a);
      slots := slots[a := slots[a].(flight := Flight(Queued, slots[a].flight.epoch, false, false, []))];
      inFlight := inFlight + 1;
    }

    /** `run_complete`, for a job just returned. */
    method Complete(a: nat, wrote: bool, fails: bool)
      requires Inv(plan, S(), {}) && a < plan.Size() && slots[a].flight.phase.Landed?
      modifies this
      ensures Completed(plan, old(S()), a, wrote, fails, S())
      ensures Inv(plan, S(), {}) && Budget(S()) < old(Budget(S()))
    {
      ghost var s0 := S();
      TakeJob(a);
      if err || slots[a].flight.failed {
        FailKeeps(plan, S(), {a});
        FailBudget(S());
        err := true;
        return;
      }
      if slots[a].flight.hit {
        FinishChecked(a);
        return;
      }
      if plan.g.actions[a].kind.Discovered? {
        CompleteDiscovered(a, wrote, fails);
        return;
      }
      CommitFlight(a, wrote, fails);
    }

    method TakeJob(a: nat)
      requires Inv(plan, S(), {}) && a < plan.Size() && slots[a].flight.phase.Landed?
      modifies this`slots, this`inFlight
      ensures old(inFlight) > 0 && S() == Take(old(S()), a)
      ensures Inv(plan, S(), {a}) && Flown(plan, S(), a) && !slots[a].parked
      ensures Budget(S()) == old(Budget(S())) - if slots[a].flight.epoch < completed then 3 else 1
    {
      TakeKeeps(plan, S(), a);
      TakeBudget(plan, S(), a);
      inFlight := inFlight - 1;
      slots := slots[a := slots[a].(flight := slots[a].flight.(phase := Idle))];
    }

    /** The part of `run_complete` that looks at what the execution observed. */
    method CompleteDiscovered(a: nat, wrote: bool, fails: bool)
      requires Inv(plan, S(), {a}) && a < plan.Size() && Flown(plan, S(), a) && !slots[a].parked && !slots[a].flight.hit
      requires plan.g.actions[a].kind.Discovered?
      modifies this
      ensures Judged(plan, old(S()), a, wrote, fails, S())
      ensures Inv(plan, S(), {})
      ensures Budget(S()) <= old(Budget(S())) + if old(slots[a]).flight.epoch < old(completed) then 2 else 0
    {
      ghost var s0 := S();
      HeldIsIdle(plan, s0, a);
      var rows, epoch := slots[a].flight.rows, slots[a].flight.epoch;
      var blocked, requeue := CheckReads(a, rows, epoch);
      ghost var mid := S();
      DeferringKeepsFlown(plan, s0, S(), a);
      StaleIsPast(plan, s0, a, rows, epoch);
      if blocked {
        Park(a);
      } else if requeue {
        PutBack(a);
      } else {
        CommitFlight(a, wrote, fails);
      }
      assert Deferred(plan, s0, a, rows, mid);
    }

    /** The flight waits for an unfinished producer; it may still be committed as it is. */
    method Park(a: nat)
      requires Inv(plan, S(), {}) && a < plan.Size() && Flown(plan, S(), a) && !slots[a].done && !slots[a].flight.hit
      requires plan.g.actions[a].kind.Discovered? && slots[a].pending == 0
      modifies this`slots
      ensures S() == SetParked(old(S()), a, true) && Inv(plan, S(), {}) && Budget(S()) == old(Budget(S()))
    {
      ParkKeeps(plan, S(), a, true, {});
      FlagBudget(plan, S(), SetParked(S(), a, true), a);
      slots := slots[a := slots[a].(parked := true)];
    }

    /** The flight read something that changed after it began: it is thrown away. */
    method PutBack(a: nat)
      requires Inv(plan, S(), {a}) && a < plan.Size()
      modifies this`ready
      ensures S() == Requeue(old(S()), a) && Inv(plan, S(), {}) && Budget(S()) == old(Budget(S())) + 2
    {
      RequeueKeeps(plan, S(), a);
      RequeueBudget(plan, S(), a);
      ready := ready + [a];
    }

    // -------------------------------------------------------------- workers

    /** `flight_run` begins. */
    method StartJob(a: nat)
      requires Inv(plan, S(), {}) && a < plan.Size() && slots[a].flight.phase.Queued?
      modifies this`slots
      ensures S() == Start(old(S()), a) && Inv(plan, S(), {}) && Budget(S()) == old(Budget(S()))
      ensures |slots| == |old(slots)| && slots[a].flight.phase.Running? && slots[a].flight.epoch == completed
      ensures Between(old(S()), S())
    {
      BetweenSteps(S(), a, false, false, [], false);
      StartKeeps(plan, S(), a);
      StartBudget(plan, S(), a);
      slots := slots[a := slots[a].(flight := slots[a].flight.(phase := Running, epoch := completed))];
    }

    /** `flight_run` ends, with whatever outcome its kind allows. */
    method LandJob(a: nat, hit: bool, failed: bool, rows: seq<Obs>, wrote: bool)
      requires Inv(plan, S(), {}) && a < plan.Size() && slots[a].flight.phase.Running?
      requires MayLand(plan, S(), a, hit, failed)
      modifies this`slots
      ensures S() == Land(old(S()), a, hit, failed, rows, wrote) && Inv(plan, S(), {})
      ensures |slots| == |old(slots)|
      ensures slots[a].flight == old(slots[a]).flight.(phase := Landed, hit := hit, failed := failed, rows := rows)
      ensures Budget(S()) == old(Budget(S()))
      ensures Between(old(S()), S())
    {
      BetweenSteps(S(), a, hit, failed, rows, wrote);
      LandKeeps(plan, S(), a, hit, failed, rows, wrote);
      LandBudget(plan, S(), a, hit, failed, rows, wrote);
      var flight := slots[a].flight.(phase := Landed, hit := hit, failed := failed, rows := rows);
      slots := slots[a := slots[a].(flight := flight, wrote := wrote)];
    }

    /** The world decides how the job ends. */
    method LandSomehow(a: nat)
      requires Inv(plan, S(), {}) && a < plan.Size() && slots[a].flight.phase.Running?
      modifies this`slots
      ensures Inv(plan, S(), {}) && Budget(S()) == old(Budget(S())) && slots[a].flight.phase.Landed?
      ensures Between(old(S()), S())
    {
      var hit: bool, failed: bool, wrote: bool := *, *, *;
      var rows: seq<Obs> := *;
      hit := hit && !plan.g.actions[a].kind.Uncacheable? && (plan.g.actions[a].kind.Discovered? ==> table[a].Some?);
      LandJob(a, hit, failed && !hit, if plan.g.actions[a].kind.Discovered? then rows else [], wrote);
    }

    /** One step of one worker, if there is one to take. */
    method WorkerStep(a: nat)
      requires Inv(plan, S(), {}) && a < plan.Size()
      modifies this`slots
      ensures Inv(plan, S(), {}) && Budget(S()) == old(Budget(S())) && Between(old(S()), S())
    {
      BetweenSteps(S(), a, false, false, [], false);
      if slots[a].flight.phase.Queued? {
        StartJob(a);
      } else if slots[a].flight.phase.Running? {
        LandSomehow(a);
      }
    }

    /** Any number of worker steps, in any order. */
    method WorkersAdvance()
      requires Inv(plan, S(), {})
      modifies this`slots
      ensures Inv(plan, S(), {}) && Budget(S()) == old(Budget(S())) && Between(old(S()), S())
    {
      var steps: nat := *;
      while steps > 0
        invariant Inv(plan, S(), {}) && Budget(S()) == old(Budget(S())) && Between(old(S()), S())
      {
        ghost var was := S();
        var a: int := *;
        if 0 <= a < plan.Size() {
          WorkerStep(a);
          BetweenJoin(old(S()), was, S());
        }
        steps := steps - 1;
      }
    }

    /** `spn_thread_pool_poll`: with a job in flight, one comes back. */
    method AwaitJob() returns (a: nat)
      requires Inv(plan, S(), {}) && inFlight > 0
      modifies this`slots
      ensures Inv(plan, S(), {}) && Budget(S()) == old(Budget(S())) && Between(old(S()), S())
      ensures a < plan.Size() && slots[a].flight.phase.Landed?
    {
      WorkersAdvance();
      ghost var mid := S();
      PoolMember(plan, S());
      a :| a < plan.Size() && !slots[a].flight.phase.Idle?;
      FinishJob(a);
      BetweenJoin(old(S()), mid, S());
    }

    /** A worker sees a job through. */
    method FinishJob(a: nat)
      requires Inv(plan, S(), {}) && a < plan.Size() && !slots[a].flight.phase.Idle?
      modifies this`slots
      ensures Inv(plan, S(), {}) && Budget(S()) == old(Budget(S())) && Between(old(S()), S())
      ensures slots[a].flight.phase.Landed?
    {
      BetweenSteps(S(), a, false, false, [], false);
      if slots[a].flight.phase.Queued? {
        StartJob(a);
      }
      ghost var mid := S();
      if slots[a].flight.phase.Running? {
        LandSomehow(a);
        BetweenJoin(old(S()), mid, S());
      }
    }

    /** `spn_thread_pool_try_poll`: some returned job, if there is one. */
    method PollJob() returns (found: bool, a: nat)
      requires Inv(plan, S(), {})
      ensures found ==> a < plan.Size() && slots[a].flight.phase.Landed?
      ensures !found ==> forall b :: 0 <= b < plan.Size() ==> !slots[b].flight.phase.Landed?
    {
      found, a := false, 0;
      if exists b :: 0 <= b < plan.Size() && slots[b].flight.phase.Landed? {
        a :| a < plan.Size() && slots[a].flight.phase.Landed?;
        found := true;
      }
    }

    // -------------------------------------------------------------- the main loop

    static method CountPending(consumes: seq<nat>, valid: seq<bool>) returns (pending: nat)
      requires Below(consumes, |valid|)
      ensures pending == Occurrences(consumes, Invalid(valid))
    {
      pending := 0;
      for ci := 0 to |consumes|
        invariant pending == Occurrences(consumes[..ci], Invalid(valid))
      {
        TakeNext(consumes, ci);
        if !valid[consumes[ci]] {
          pending := pending + 1;
        }
      }
      assert consumes[..|consumes|] == consumes;
    }

    /** `seed_ready`. `valid[t]` says that artifact `t` has a digest when the run starts: sources do,
        outputs do not. */
    constructor (plan: Plan, valid: seq<bool>, table: seq<Option<seq<Obs>>>)
      requires plan.Sound() && |table| == plan.Size() && |valid| == |plan.g.artifacts|
      requires forall t :: 0 <= t < |valid| ==> (valid[t] <==> plan.g.artifacts[t].producer.None?)
      ensures this.plan == plan && this.table == table && Seeded(plan, valid, S()) && FailuresCount(S())
      ensures Inv(plan, S(), {}) && Budget(S()) < MostTurns(plan.Size())
    {
      this.plan := plan;
      this.table := table;
      slots, ready, completed, inFlight, err := [], [], 0, 0, false;
      new;
      for ai := 0 to plan.Size()
        invariant completed == 0 && inFlight == 0 && !err && this.table == table
        invariant SeededUpTo(plan, valid, slots, ready, ai)
      {
        var pending := CountPending(plan.g.actions[ai].consumes, valid);
        SeedNext(plan, valid, slots, ready, ai, pending);
        slots := slots + [Fresh(pending)];
        if pending == 0 {
          ready := ready + [ai];
        }
      }
      SeedKeeps(plan, valid, S());
    }

    /** Takes the newest ready action and dispatches it. */
    method DispatchNext(wrote: bool, fails: bool)
      requires Inv(plan, S(), {}) && ready != []
      modifies this
      ensures Dispatched(plan, Pop(old(S())), old(ready[|ready| - 1]), wrote, fails, S())
      ensures Inv(plan, S(), {}) && Budget(S()) < old(Budget(S()))
    {
      var id := ready[|ready| - 1];
      PopKeeps(plan, S());
      PopBudget(plan, S());
      ready := ready[..|ready| - 1];
      Dispatch(id, wrote, fails);
    }

    /** Cancelling takes effect between two turns. */
    method MaybeCancel(cancelled: bool)
      requires Inv(plan, S(), {})
      modifies this`err
      ensures Inv(plan, S(), {}) && Budget(S()) == old(Budget(S())) && S() == Cancelled(old(S()), cancelled)
    {
      if !err && cancelled {
        FailKeeps(plan, S(), {});
        FailBudget(S());
        err := true;
      }
    }

    /** A returned job is handled; `before` is where the turn began. The first error is kept. */
    method HandleJob(a: nat, o: Outside, turn: nat, known: Option<Cause>, ghost outside: nat -> Outside,
                     ghost before: State)
      returns (cause: Option<Cause>)
      requires Inv(plan, S(), {}) && a < plan.Size() && slots[a].flight.phase.Landed?
      requires Between(Cancelled(before, o.cancelled), S())
      requires outside(turn) == o && Explained(S(), known, turn + 1, outside)
      modifies this
      ensures Inv(plan, S(), {}) && Budget(S()) < old(Budget(S()))
      ensures TookTurn(plan, before, old(S()), a, o, S())
      ensures Explained(S(), cause, turn + 1, outside) && (old(err) ==> err && cause == known)
      ensures !old(err) ==> (err <==> cause.Some?)
    {
      ghost var s0 := S();
      var was := err;
      LandedIsOpen(plan, s0, a);
      Complete(a, o.wrote, o.fails);
      cause := known;
      if was {
        NothingNew(plan, s0, a, o, S(), known, turn + 1, outside);
        return;
      }
      CompletedCause(plan, s0, a, o.wrote, o.fails, S());
      if err {
        cause := Some(if slots[a].flight.failed then JobFailed(a) else CommitFailed(a, turn));
      }
    }

    /** The newest ready action is dispatched; `before` is where the turn began. */
    method HandleReady(o: Outside, turn: nat, ghost outside: nat -> Outside, ghost before: State)
      returns (cause: Option<Cause>)
      requires Inv(plan, S(), {}) && !err && ready != [] && Between(Cancelled(before, o.cancelled), S())
      requires outside(turn) == o && Explained(S(), None, turn + 1, outside)
      modifies this
      ensures Inv(plan, S(), {}) && Budget(S()) < old(Budget(S()))
      ensures TookTurn(plan, before, old(S()), old(ready[|ready| - 1]), o, S())
      ensures Explained(S(), cause, turn + 1, outside) && (err <==> cause.Some?)
    {
      ghost var s0 := S();
      var a := ready[|ready| - 1];
      ReadyIsOpen(plan, s0, a);
      DispatchNext(o.wrote, o.fails);
      DispatchedCause(plan, Pop(s0), a, o.wrote, o.fails, S());
      cause := if err then Some(CommitFailed(a, turn)) else None;
    }

    /** One turn of the main loop; the last one finds nothing left to do. `known` is the error so far. */
    method Turn(o: Outside, turn: nat, known: Option<Cause>, ghost outside: nat -> Outside)
      returns (more: bool, cause: Option<Cause>)
      requires Inv(plan, S(), {}) && outside(turn) == o && Explained(S(), known, turn, outside)
      modifies this
      ensures Inv(plan, S(), {})
      ensures more ==> Budget(S()) < old(Budget(S()))
      ensures more ==> exists mid, a :: TookTurn(plan, old(S()), mid, a, o, S())
      ensures !more ==> inFlight == 0 && (err || ready == []) && Budget(S()) == old(Budget(S()))
      ensures !more ==> Between(Cancelled(old(S()), o.cancelled), S())
      ensures Explained(S(), cause, turn + 1, outside) && (old(err) ==> err && cause == known)
      ensures !old(err) ==> (err <==> cause.Some?) && (o.cancelled ==> err)
    {
      hide Inv, Explained, Between, TookTurn, Budget;
      ghost var s0 := S();
      NextExplained(s0, known, turn, outside);
      cause := if !err && o.cancelled then Some(Cancellation(turn)) else known;
      MaybeCancel(o.cancelled);
      ghost var s1 := S();
      WorkersAdvance();
      StillExplained(s1, S(), cause, turn + 1, outside);
      ErrStays(s1, S());
      var found, job := PollJob();
      if found {
        cause := HandleJob(job, o, turn, cause, outside, s0);
        return true, cause;
      }
      if !err && ready != [] {
        cause := HandleReady(o, turn, outside, s0);
        return true, cause;
      }
      if inFlight > 0 {
        ghost var s2 := S();
        job := AwaitJob();
        BetweenJoin(s1, s2, S());
        StillExplained(s2, S(), cause, turn + 1, outside);
        ErrStays(s2, S());
        cause := HandleJob(job, o, turn, cause, outside, s0);
        return true, cause;
      }
      return false, cause;
    }

    /** `spn_dag_run_executor`, from the first turn on. `stalled` is the error the source reports when the
        loop ends early, `cause` the error it reports otherwise; `turns` is the counter it checks. `outside`
        is what the world decides, turn by turn. */
    method Execute(outside: nat -> Outside) returns (turns: nat, stalled: bool, cause: Option<Cause>)
      requires Inv(plan, S(), {}) && Budget(S()) < MostTurns(plan.Size()) && FailuresCount(S())
      modifies this
      ensures Inv(plan, S(), {}) && inFlight == 0
      ensures turns <= MostTurns(plan.Size()) <= 4 * (plan.Size() + 1) * (plan.Size() + 1)
      ensures stalled <==> !err && exists a :: 0 <= a < plan.Size() && !slots[a].done
      ensures !err ==> (stalled <==> exists ring :: Ring(Blocks(plan, S()), ring))
      ensures !err && NothingDiscovered(plan.g) ==> (stalled <==> exists ring :: Ring(FeedEdges(plan.g), ring))
      ensures err <==> old(err) || cause.Some?
      ensures cause.Some? ==> !old(err) && Grounds(cause.value, turns, outside, S())
      ensures !err ==> (forall t: nat :: t < turns ==> !outside(t).cancelled) && forall a :: !Dropped(S(), a, true)
    {
      hide Inv, Explained, Between, TookTurn, Grounds, Budget;
      NothingExplained(S(), outside);
      turns, cause := 0, None;
      var turnsMax := 4 * (plan.Size() + 1) * (plan.Size() + 1);
      ghost var budget := Budget(S());
      MostTurnsFits(plan.Size());
      assert budget < turnsMax;
      var more := true;
      while more
        invariant Inv(plan, S(), {}) && turns + Budget(S()) <= budget + (if more then 0 else 1)
        invariant !more ==> inFlight == 0 && (err || ready == [])
        invariant Explained(S(), cause, turns, outside)
        invariant (err <==> old(err) || cause.Some?) && (cause.Some? ==> !old(err))
        invariant !err ==> forall t: nat :: t < turns ==> !outside(t).cancelled
        decreases more, Budget(S())
      {
        InvCounts(plan, S());
        BudgetIsNatural(plan, S());
        assert turns + 1 <= turnsMax;
        more, cause := Turn(outside(turns), turns, cause, outside);
        turns := turns + 1;
      }
      InvCounts(plan, S());
      BudgetIsNatural(plan, S());
      CompletedBound(plan, S());
      ExplainedMeans(S(), cause, turns, outside);
      stalled := !err && completed != plan.Size();
      if !err {
        Verdict(plan, S());
      }
    }
  }
}
