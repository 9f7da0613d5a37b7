/** What the scheduler waits for is all that is final: which sets of actions can be finished at all
    (source/core/dag/run.c:939-1242). The main loop and the workers are those of `Run`. */
module Tight {
  import opened Paths
  import opened Dag
  import opened Observations
  import opened Targets
  import opened Scheduler
  import opened Steps
  import opened Finishing
  import opened Run

  /** Whatever `a` consumes is produced by members of `earlier`, and if it is a discovered action whatever
      `rows` lead to is one of them or `a` itself. */
  ghost predicate Provided(p: Plan, a: nat, rows: seq<Obs>, earlier: seq<nat>)
    requires a < p.Size()
  {
    && (forall t: nat, q: nat :: t in p.g.actions[a].consumes && p.g.Produces(q, t) ==> q in earlier)
    && (p.g.actions[a].kind.Discovered? ==> forall q :: q in p.Leads(rows) && q != a ==> q in earlier)
  }

  /** `order` lists different actions, each behind everything it needs. `rows[a]` is what `a` observes. */
  ghost predicate Orderly(p: Plan, order: seq<nat>, rows: seq<seq<Obs>>) {
    && |rows| == p.Size() && Below(order, p.Size()) && NoDup(order)
    && forall i :: 0 <= i < |order| ==> Provided(p, order[i], rows[order[i]], order[..i])
  }

  // ---------------------------------------------------------------- what is finished can be ordered

  /** What the finished actions rest on. */
  function Bases(s: State): (r: seq<seq<Obs>>)
    requires |s.slots| == |s.table|
    ensures |r| == |s.slots| && forall a :: 0 <= a < |r| ==> r[a] == Basis(s, a)
  {
    seq(|s.slots|, a requires 0 <= a < |s.slots| => Basis(s, a))
  }

  lemma LatestOf(s: State, members: set<nat>) returns (a: nat)
    requires members != {} && forall x :: x in members ==> x < |s.slots|
    ensures a in members && forall x :: x in members ==> s.slots[x].doneEpoch <= s.slots[a].doneEpoch
  {
    var first :| first in members;
    var rest := members - {first};
    assert members == rest + {first};
    a := first;
    if rest != {} {
      var b := LatestOf(s, rest);
      if s.slots[first].doneEpoch < s.slots[b].doneEpoch {
        a := b;
      }
      assert forall x :: x in rest ==> s.slots[x].doneEpoch <= s.slots[b].doneEpoch <= s.slots[a].doneEpoch;
    }
  }

  /** A finished action needed nobody that finished at its time or later. */
  lemma NeedsAreEarlier(p: Plan, s: State, a: nat, earlier: seq<nat>)
    requires Core(p, s) && a < p.Size() && s.slots[a].done
    requires forall q :: 0 <= q < p.Size() && s.slots[q].done && s.slots[q].doneEpoch < s.slots[a].doneEpoch ==>
      q in earlier
    ensures Provided(p, a, Basis(s, a), earlier)
  {
    forall t: nat, q: nat | t in p.g.actions[a].consumes && p.g.Produces(q, t) ensures q in earlier {
      assert Started(s.slots[a]);
    }
    assert Grounded(p, s, a);
  }

  /** In every reachable state the finished actions can be listed with everything each of them needs in
      front of it. */
  lemma {:induction false} FinishedIsOrderly(p: Plan, s: State, members: set<nat>) returns (order: seq<nat>)
    requires Core(p, s) && (forall a :: a in members ==> a < p.Size() && s.slots[a].done)
    requires forall a, q ::
      a in members && 0 <= q < p.Size() && s.slots[q].done && s.slots[q].doneEpoch < s.slots[a].doneEpoch ==>
        q in members
    ensures Orderly(p, order, Bases(s)) && forall a: nat :: a in order <==> a in members
    decreases |members|
  {
    order := [];
    if members != {} {
      var a := LatestOf(s, members);
      var front := FinishedIsOrderly(p, s, members - {a});
      NeedsAreEarlier(p, s, a, front);
      order := front + [a];
      forall i | 0 <= i < |order| ensures Provided(p, order[i], Bases(s)[order[i]], order[..i]) {
        if i < |front| {
          assert order[..i] == front[..i];
        } else {
          assert order[..i] == front;
        }
      }
    }
  }

  // ---------------------------------------------------------------- what can be ordered can be finished

  /** Nobody waits, and no worker has looked at an action outside `done`. */
  ghost predicate Calm(p: Plan, s: State, rows: seq<seq<Obs>>, done: seq<nat>) {
    && Shape(p, s) && |rows| == p.Size() && !s.err
    && (forall a :: 0 <= a < p.Size() ==> !s.slots[a].parked && s.slots[a].waiters == [] && s.slots[a].deferred == 0)
    && (forall a: nat :: a < p.Size() ==> (s.slots[a].done <==> a in done))
    && (forall a :: 0 <= a < p.Size() && s.slots[a].done ==>
          !s.slots[a].flight.hit && s.slots[a].flight.rows == rows[a])
    && (forall a :: 0 <= a < p.Size() && !s.slots[a].done ==>
          s.table[a].None? && (s.slots[a].flight.phase.Idle? || s.slots[a].flight.phase.Queued?))
  }

  /** A run that begins with an empty cache is calm. */
  lemma SeededIsCalm(p: Plan, valid: seq<bool>, s: State, rows: seq<seq<Obs>>)
    requires Seeded(p, valid, s) && Shape(p, s) && |rows| == p.Size()
    requires forall a :: 0 <= a < p.Size() ==> s.table[a].None?
    ensures Calm(p, s, rows, [])
  {
    assert forall a | 0 <= a < p.Size() :: s.slots[a] == Fresh(s.slots[a].pending);
  }

  /** Dispatching without recorded sets hands everyone to the pool. */
  lemma DispatchStaysCalm(p: Plan, s: State, rows: seq<seq<Obs>>, done: seq<nat>, a: nat, after: State)
    requires Calm(p, s, rows, done) && Inv(p, s, {}) && s.ready != [] && a == s.ready[|s.ready| - 1]
    requires Dispatched(p, Pop(s), a, true, false, after)
    ensures Calm(p, after, rows, done) && |after.ready| < |s.ready|
  {
    assert a in s.ready && Places(s, a) == 1;
    assert after == Submit(Pop(s), a);
  }

  /** With nothing left to dispatch, the next action in the order is with the pool. */
  lemma NextIsQueued(p: Plan, s: State, rows: seq<seq<Obs>>, order: seq<nat>, k: nat)
    requires Orderly(p, order, rows) && k < |order| && Calm(p, s, rows, order[..k]) && Inv(p, s, {}) && s.ready == []
    ensures s.slots[order[k]].flight.phase.Queued?
  {
    var a := order[k];
    assert a !in order[..k];
    OccurrencesPositive(p.g.actions[a].consumes, Open(p.g, s.slots));
    if s.slots[a].pending > 0 {
      var t :| t in p.g.actions[a].consumes && t in Open(p.g, s.slots);
      assert p.g.Produces(p.g.artifacts[t].producer.value, t);
    }
    assert Places(s, a) == 1;
  }

  /** Everyone that `rows` lead to is done. */
  ghost predicate ReadsDone(p: Plan, s: State, a: nat, rows: seq<Obs>)
    requires Shape(p, s) && a < p.Size()
  {
    p.g.actions[a].kind.Discovered? ==> forall q :: q in p.Leads(rows) && q != a ==> q < p.Size() && s.slots[q].done
  }

  lemma NextIsProvided(p: Plan, s: State, rows: seq<seq<Obs>>, order: seq<nat>, k: nat)
    requires Orderly(p, order, rows) && k < |order| && Calm(p, s, rows, order[..k])
    ensures order[k] !in order[..k] && ReadsDone(p, s, order[k], rows[order[k]])
  {
    var a := order[k];
    assert Provided(p, a, rows[a], order[..k]);
    forall q | q in order[..k] ensures q < p.Size() {
      var i :| 0 <= i < k && order[i] == q;
    }
  }

  lemma NextMayRun(p: Plan, s: State, rows: seq<seq<Obs>>, order: seq<nat>, k: nat)
    requires Orderly(p, order, rows) && k < |order| && Calm(p, s, rows, order[..k]) && Inv(p, s, {}) && s.ready == []
    ensures var a := order[k];
      a < p.Size() && a !in order[..k] && s.slots[a].flight.phase.Queued? && ReadsDone(p, s, a, rows[a])
    ensures order[..k + 1] == order[..k] + [order[k]]
  {
    NextIsQueued(p, s, rows, order, k);
    NextIsProvided(p, s, rows, order, k);
  }

  lemma {:induction false} DeferNobody(s: State, a: nat, hits: seq<nat>)
    requires a < |s.slots| && Below(hits, |s.slots|) && forall q :: q in hits && q != a ==> s.slots[q].done
    ensures DeferAll(s, a, hits) == s
  {
    if hits != [] {
      DeferNobody(s, a, hits[..|hits| - 1]);
    }
  }

  /** A flight that began after everything its reads lead to had finished is committed as it lands. */
  lemma LandedIsCommitted(p: Plan, s: State, a: nat, after: State)
    requires Inv(p, s, {}) && a < p.Size() && s.slots[a].flight.phase.Landed? && !s.err
    requires !s.slots[a].flight.hit && !s.slots[a].flight.failed && s.slots[a].flight.epoch == s.completed
    requires s.slots[a].deferred == 0
    requires ReadsDone(p, s, a, s.slots[a].flight.rows)
    requires Completed(p, s, a, true, false, after)
    ensures CommitResult(p, Take(s, a), a, true, false, after)
  {
    var mid := Take(s, a);
    var rows, epoch := s.slots[a].flight.rows, s.slots[a].flight.epoch;
    if p.g.actions[a].kind.Discovered? {
      LeadsBelow(p, rows);
      DeferNobody(mid, a, p.Leads(rows));
      StaleAmongMeans(mid, a, p.Leads(rows), epoch);
      assert forall q | 0 <= q < p.Size() ::
        mid.slots[q].doneEpoch == s.slots[q].doneEpoch && mid.slots[q].done == s.slots[q].done;
      assert !AnyStale(p, mid, a, rows, epoch);
    }
  }

  /** Once it is committed, it is done, and the rest is as calm as before. */
  lemma CommitStaysCalm(p: Plan, s: State, s1: State, rows: seq<seq<Obs>>, done: seq<nat>, a: nat, after: State)
    requires Calm(p, s, rows, done) && a < p.Size() && a !in done && Shape(p, after)
    requires s1 == Land(Start(s, a), a, false, false, rows[a], true) && s1.inFlight > 0
    requires CommitResult(p, Take(s1, a), a, true, false, after)
    ensures Calm(p, after, rows, done + [a])
  {
    var mid := Committed(p, Take(s1, a), a, true);
    assert MarkedDone(mid, a, after);
    forall c | 0 <= c < p.Size()
      ensures after.slots[c].waiters == [] && after.slots[c].deferred == 0 && !after.slots[c].parked
      ensures after.slots[c].done <==> c in done + [a]
      ensures after.slots[c].flight == mid.slots[c].flight
      ensures c != a ==> mid.slots[c] == s.slots[c] && mid.table[c] == s.table[c]
    {
    }
  }

  lemma LandedIsCalm(p: Plan, s: State, s1: State, rows: seq<seq<Obs>>, done: seq<nat>, a: nat, after: State)
    requires Calm(p, s, rows, done) && a < p.Size() && a !in done && ReadsDone(p, s, a, rows[a]) && Shape(p, after)
    requires s1 == Land(Start(s, a), a, false, false, rows[a], true) && Inv(p, s1, {})
    requires Completed(p, s1, a, true, false, after)
    ensures Calm(p, after, rows, done + [a])
  {
    assert forall q | 0 <= q < p.Size() :: s1.slots[q].done == s.slots[q].done;
    LandedIsCommitted(p, s1, a, after);
    CommitStaysCalm(p, s, s1, rows, done, a, after);
  }

  /** The main loop dispatches whatever is ready. */
  method DispatchAll(run: Run, ghost rows: seq<seq<Obs>>, ghost done: seq<nat>)
    requires Inv(run.plan, run.S(), {}) && Calm(run.plan, run.S(), rows, done)
    modifies run
    ensures Inv(run.plan, run.S(), {}) && Calm(run.plan, run.S(), rows, done) && run.ready == []
  {
    while run.ready != []
      invariant Inv(run.plan, run.S(), {}) && Calm(run.plan, run.S(), rows, done)
      decreases |run.ready|
    {
      ghost var before, a := run.S(), run.ready[|run.ready| - 1];
      run.DispatchNext(true, false);
      DispatchStaysCalm(run.plan, before, rows, done, a, run.S());
    }
  }

  /** A worker executes one action, and the main loop completes it. */
  method ExecuteOne(run: Run, a: nat, rows: seq<seq<Obs>>, ghost done: seq<nat>)
    requires Inv(run.plan, run.S(), {}) && Calm(run.plan, run.S(), rows, done)
    requires a < run.plan.Size() && a !in done && run.slots[a].flight.phase.Queued?
    requires ReadsDone(run.plan, run.S(), a, rows[a])
    modifies run
    ensures Inv(run.plan, run.S(), {}) && Calm(run.plan, run.S(), rows, done + [a])
  {
    ghost var before := run.S();
    run.StartJob(a);
    run.LandJob(a, false, false, rows[a], true);
    ghost var landed := run.S();
    run.Complete(a, true, false);
    LandedIsCalm(run.plan, before, landed, rows, done, a, run.S());
  }

  /** Whatever can be listed with everything each action needs in front of it can be finished by a run
      that begins with an empty cache, with everything else unfinished. */
  method FinishExactly(p: Plan, valid: seq<bool>, order: seq<nat>, rows: seq<seq<Obs>>) returns (run: Run)
    requires p.Sound() && Orderly(p, order, rows) && |valid| == |p.g.artifacts|
    requires forall t :: 0 <= t < |valid| ==> (valid[t] <==> p.g.artifacts[t].producer.None?)
    ensures fresh(run) && run.plan == p && Inv(p, run.S(), {}) && !run.err
    ensures forall a: nat :: a < p.Size() ==> (run.slots[a].done <==> a in order)
    ensures forall a: nat :: a in order ==> Basis(run.S(), a) == rows[a]
  {
    hide Inv, Calm, Orderly, Seeded;
    InvHasShape(p);
    OrderlyFits(p, order, rows);
    run := new Run(p, valid, seq(p.Size(), _ => None));
    SeededIsCalm(p, valid, run.S(), rows);
    assert order[..0] == [];
    for k := 0 to |order|
      invariant fresh(run) && run.plan == p && Inv(p, run.S(), {}) && Calm(p, run.S(), rows, order[..k])
    {
      DispatchAll(run, rows, order[..k]);
      NextMayRun(p, run.S(), rows, order, k);
      ExecuteOne(run, order[k], rows, order[..k]);
    }
    assert order[..|order|] == order;
    CalmMeans(p, run.S(), rows, order);
  }

  lemma OrderlyFits(p: Plan, order: seq<nat>, rows: seq<seq<Obs>>)
    requires Orderly(p, order, rows)
    ensures |rows| == p.Size() && Below(order, p.Size())
  {
  }

  lemma InvHasShape(p: Plan)
    ensures forall s: State {:trigger Inv(p, s, {})} :: Inv(p, s, {}) ==> Shape(p, s)
  {
  }

  lemma CalmMeans(p: Plan, s: State, rows: seq<seq<Obs>>, done: seq<nat>)
    requires Calm(p, s, rows, done) && Below(done, p.Size())
    ensures !s.err && forall a: nat :: a < p.Size() ==> (s.slots[a].done <==> a in done)
    ensures forall a: nat :: a in done ==> a < p.Size() && Basis(s, a) == rows[a]
  {
  }

  // ---------------------------------------------------------------- what becomes of an execution

  ghost predicate AllAnchored(rows: seq<Obs>) {
    forall i :: 0 <= i < |rows| ==> Anchored(rows[i].path)
  }

  /** Somebody else whose output the rows saw is not done. */
  ghost predicate SawUnfinished(p: Plan, s: State, a: nat, rows: seq<Obs>)
    requires Shape(p, s)
  {
    exists q: nat :: q < p.Size() && q != a && Sees(p.g, rows, q) && !s.slots[q].done
  }

  /** Somebody else whose output the rows saw finished after `epoch`, and its outputs were written then. */
  ghost predicate SawChanged(p: Plan, s: State, a: nat, rows: seq<Obs>, epoch: nat)
    requires Shape(p, s)
  {
    exists q: nat :: q < p.Size() && q != a && Sees(p.g, rows, q)
      && s.slots[q].done && s.slots[q].doneEpoch > epoch && s.slots[q].wrote
  }

  lemma LeadsAreSeen(p: Plan, rows: seq<Obs>, q: nat)
    requires p.Sound() && AllAnchored(rows)
    ensures q in p.Leads(rows) <==> q < p.Size() && Sees(p.g, rows, q)
  {
    VisitsAreScan(p.g, p.ix, rows, q);
    if q in p.Leads(rows) {
      LeadsInRange(p, rows, q);
    }
  }

  /** A round of deferrals leaves the action waiting exactly when the rows saw somebody unfinished. */
  lemma RoundMeans(p: Plan, s: State, a: nat, rows: seq<Obs>, mid: State)
    requires p.Sound() && AllAnchored(rows) && Deferred(p, s, a, rows, mid) && s.slots[a].deferred == 0
    ensures mid.slots[a].deferred > 0 <==> SawUnfinished(p, s, a, rows)
    ensures SameFlights(s, mid)
  {
    DeferAllWaits(s, a, p.Leads(rows));
    DeferAllFlights(s, a, p.Leads(rows));
    forall q: nat ensures q in p.Leads(rows) <==> q < p.Size() && Sees(p.g, rows, q) {
      LeadsAreSeen(p, rows, q);
    }
  }

  lemma StaleMeans(p: Plan, s: State, a: nat, rows: seq<Obs>, epoch: nat)
    requires p.Sound() && AllAnchored(rows) && Shape(p, s)
    ensures AnyStale(p, s, a, rows, epoch) <==> SawChanged(p, s, a, rows, epoch)
  {
    StaleAmongMeans(s, a, p.Leads(rows), epoch);
    forall q: nat ensures q in p.Leads(rows) <==> q < p.Size() && Sees(p.g, rows, q) {
      LeadsAreSeen(p, rows, q);
    }
  }

  /** What a returned execution comes to. */
  datatype Verdict = Waits | FliesAgain | Fails | Finishes

  ghost function VerdictOf(p: Plan, s: State, a: nat, fails: bool): Verdict
    requires Shape(p, s) && a < p.Size()
  {
    var rows, epoch := s.slots[a].flight.rows, s.slots[a].flight.epoch;
    if SawUnfinished(p, s, a, rows) then Waits
    else if SawChanged(p, s, a, rows, epoch) then FliesAgain
    else if fails then Fails
    else Finishes
  }

  ghost predicate Became(s: State, a: nat, s': State, verdict: Verdict)
    requires a < |s.slots| == |s'.slots|
  {
    match verdict
    case Waits => s'.slots[a].parked && s'.slots[a].deferred > 0 && !s'.slots[a].done && s'.ready == s.ready && !s'.err
    case FliesAgain => s'.ready == s.ready + [a] && !s'.slots[a].parked && !s'.slots[a].done && !s'.err
    case Fails => s'.err && !s'.slots[a].done
    case Finishes => s'.slots[a].done && s'.slots[a].doneEpoch == s'.completed == s.completed + 1 && !s'.err
  }

  /** A returned execution of a discovered action waits for whatever it saw that is unfinished; otherwise it
      flies again if something it saw changed after it began, and is committed if nothing did. */
  lemma ReturnedExecution(p: Plan, s: State, a: nat, wrote: bool, fails: bool, s': State)
    requires Inv(p, s, {}) && !s.err && a < p.Size() && s.slots[a].flight.phase.Landed?
    requires p.g.actions[a].kind.Discovered? && !s.slots[a].flight.hit && !s.slots[a].flight.failed
    requires AllAnchored(s.slots[a].flight.rows) && Completed(p, s, a, wrote, fails, s')
    ensures |s'.slots| == |s.slots| && Became(s, a, s', VerdictOf(p, s, a, fails))
  {
    hide Inv, SawUnfinished, SawChanged, Judged, AllAnchored;
    TakeKeeps(p, s, a);
    HeldIsIdle(p, Take(s, a), a);
    InvIsSound(p, s);
    TakingChangesNothing(p, s, a);
    JudgedMeans(p, Take(s, a), a, wrote, fails, s');
  }

  lemma InvIsSound(p: Plan, s: State)
    requires Inv(p, s, {})
    ensures p.Sound() && Shape(p, s)
  {
  }

  lemma TakingChangesNothing(p: Plan, s: State, a: nat)
    requires Shape(p, s) && a < p.Size() && s.inFlight > 0 && Shape(p, Take(s, a))
    ensures var rows, epoch := s.slots[a].flight.rows, s.slots[a].flight.epoch;
      && (SawUnfinished(p, Take(s, a), a, rows) <==> SawUnfinished(p, s, a, rows))
      && (SawChanged(p, Take(s, a), a, rows, epoch) <==> SawChanged(p, s, a, rows, epoch))
  {
    assert forall q | 0 <= q < p.Size() && q != a :: Take(s, a).slots[q] == s.slots[q];
  }

  lemma JudgedMeans(p: Plan, s: State, a: nat, wrote: bool, fails: bool, s': State)
    requires p.Sound() && Shape(p, s) && a < p.Size() && AllAnchored(s.slots[a].flight.rows) && !s.err
    requires s.slots[a].deferred == 0 && !s.slots[a].parked && !s.slots[a].done && Judged(p, s, a, wrote, fails, s')
    ensures |s'.slots| == |s.slots| && Became(s, a, s', VerdictOf(p, s, a, fails))
  {
    var rows, epoch := s.slots[a].flight.rows, s.slots[a].flight.epoch;
    var mid :| Deferred(p, s, a, rows, mid)
      && if mid.slots[a].deferred > 0 then s' == SetParked(mid, a, true)
         else if AnyStale(p, s, a, rows, epoch) then s' == Requeue(mid, a)
         else CommitResult(p, mid, a, wrote, fails, s');
    RoundMeans(p, s, a, rows, mid);
    StaleMeans(p, s, a, rows, epoch);
    if mid.slots[a].deferred == 0 && !AnyStale(p, s, a, rows, epoch) && !fails {
      assert MarkedDone(Committed(p, mid, a, wrote), a, s');
    }
  }

  /** An action taken off the ready stack, unless it is parked, flies at once unless what was recorded for it
      saw somebody unfinished; then it waits. */
  lemma DispatchMeans(p: Plan, s: State, a: nat, wrote: bool, fails: bool, s': State)
    requires Inv(p, s, {a}) && a < p.Size() && !s.slots[a].parked && Dispatched(p, s, a, wrote, fails, s')
    requires s.table[a].Some? ==> AllAnchored(s.table[a].value)
    ensures |s'.slots| == |s.slots|
    ensures if p.g.actions[a].kind.Discovered? && s.table[a].Some? && SawUnfinished(p, s, a, s.table[a].value)
            then s'.slots[a].deferred > 0 && s'.inFlight == s.inFlight && s'.slots[a].flight == s.slots[a].flight
            else s'.slots[a].flight.phase.Queued? && s'.inFlight == s.inFlight + 1 && s'.slots[a].deferred == 0
  {
    HeldIsIdle(p, s, a);
    if p.g.actions[a].kind.Discovered? && s.table[a].Some? {
      var mid :| Deferred(p, s, a, s.table[a].value, mid)
        && if mid.slots[a].deferred > 0 then s' == mid else s' == Submit(mid, a);
      RoundMeans(p, s, a, s.table[a].value, mid);
    }
  }

  // ---------------------------------------------------------------- the gap in the index

  lemma GapIsOrderly(p: Plan)
    requires p.g == GapGraph() && Indexes(p.g, p.ix)
    ensures p.Sound() && Orderly(p, [1], [[], [GapRead()]])
    ensures p.g.Produces(0, 0) && OutputOverlaps(p.g.artifacts[0], GapRead().path)
  {
    DirectoryReadIsNotDeferred(p.ix, 0);
    forall q: nat ensures q !in p.Leads([GapRead()]) {
      DirectoryReadIsNotDeferred(p.ix, q);
    }
  }

  /** A run in which the reader of gen has finished while the action that writes gen/a.h has not, although
      `spn_dag_output_overlaps` reports the output for what was observed. */
  method ReaderOvertakesWriter(p: Plan) returns (run: Run)
    requires p.g == GapGraph() && Indexes(p.g, p.ix)
    ensures run.plan == p && Inv(p, run.S(), {}) && !run.err
    ensures run.slots[1].done && Basis(run.S(), 1) == [GapRead()] && !run.slots[0].done
    ensures p.g.Produces(0, 0) && OutputOverlaps(p.g.artifacts[0], GapRead().path)
  {
    GapIsOrderly(p);
    run := FinishExactly(p, [false], [1], [[], [GapRead()]]);
  }
}
