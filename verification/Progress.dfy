/** Why a run ends: every turn of the main loop uses up some of a bounded budget
    (source/core/dag/run.c:1213-1242). */
module Progress {
  import opened Paths
  import opened Dag
  import opened Observations
  import opened Targets
  import opened Scheduler
  import opened Steps
  import opened Finishing
  import opened Rings

  /** How many turns an action can still take before another action completes. A flight that began
      before the latest completion may be thrown away and flown once more; a later one may not. */
  function Remaining(s: State, a: nat): (r: nat)
    requires a < |s.slots|
    ensures r <= 3
  {
    var flight := s.slots[a].flight;
    if flight.phase.Queued? then 1
    else if !flight.phase.Idle? then (if flight.epoch < s.completed then 3 else 1)
    else if a in s.ready then 2
    else 0
  }

  function Total(s: State, n: nat): nat
    requires n <= |s.slots|
  {
    if n == 0 then 0 else Total(s, n - 1) + Remaining(s, n - 1)
  }

  /** The budget: three turns for each action and each completion still to come, and what remains now. */
  function Budget(s: State): int {
    3 * |s.slots| * (|s.slots| - s.completed) + Total(s, |s.slots|)
  }

  function MostTurns(n: nat): nat {
    3 * n * n + 2 * n + 1
  }

  lemma {:induction false} TotalBound(s: State, n: nat)
    requires n <= |s.slots|
    ensures Total(s, n) <= 3 * n
  {
    if n > 0 {
      TotalBound(s, n - 1);
    }
  }

  lemma {:induction false} TotalChange(s: State, s': State, a: nat, n: nat)
    requires |s.slots| == |s'.slots| && a < n <= |s.slots|
    requires forall b :: 0 <= b < |s.slots| && b != a ==> Remaining(s, b) == Remaining(s', b)
    ensures Total(s', n) == Total(s, n) - Remaining(s, a) + Remaining(s', a)
  {
    if n - 1 == a {
      TotalSame(s, s', n - 1);
    } else {
      TotalChange(s, s', a, n - 1);
    }
  }

  lemma {:induction false} TotalSame(s: State, s': State, n: nat)
    requires |s.slots| == |s'.slots| && n <= |s.slots|
    requires forall b :: 0 <= b < n ==> Remaining(s, b) == Remaining(s', b)
    ensures Total(s', n) == Total(s, n)
  {
    if n > 0 {
      TotalSame(s, s', n - 1);
    }
  }

  /** A step on one action moves the budget by what that action loses or gains. */
  lemma LocalBudget(p: Plan, s: State, s': State, a: nat)
    requires Local(p, s, s', a) && forall b :: b != a ==> (b in s.ready <==> b in s'.ready)
    ensures Budget(s') == Budget(s) - Remaining(s, a) + Remaining(s', a)
  {
    TotalChange(s, s', a, |s.slots|);
  }

  lemma DeferBudget(s: State, s': State)
    requires SameFlights(s, s')
    ensures Budget(s') == Budget(s)
  {
    TotalSame(s, s', |s.slots|);
  }

  /** A completion pays for everything it may set off. */
  lemma FinishBudget(s: State, a: nat, s': State)
    requires MarkedDone(s, a, s')
    ensures Budget(s') <= Budget(s)
  {
    var n := |s.slots|;
    TotalBound(s', n);
    assert 3 * n * (n - s'.completed) == 3 * n * (n - s.completed) - 3 * n;
  }

  lemma {:induction false} InitialTotal(s: State, n: nat)
    requires n <= |s.slots| && forall a :: 0 <= a < |s.slots| ==> s.slots[a].flight.phase.Idle?
    ensures Total(s, n) <= 2 * n
  {
    if n > 0 {
      InitialTotal(s, n - 1);
    }
  }

  lemma CompletedBound(p: Plan, s: State)
    requires Shape(p, s) && s.completed == |Done(s)|
    ensures s.completed <= p.Size()
    ensures s.completed == p.Size() <==> forall a :: 0 <= a < p.Size() ==> s.slots[a].done
  {
    var all := UpTo(p.Size());
    Subsets(Done(s), all);
    if s.completed == p.Size() {
      forall a | 0 <= a < p.Size() ensures s.slots[a].done {
        assert a in Done(s);
      }
    }
    if forall a :: 0 <= a < p.Size() ==> s.slots[a].done {
      assert Done(s) == all;
    }
  }

  lemma BudgetIsNatural(p: Plan, s: State)
    requires Shape(p, s) && s.completed == |Done(s)|
    ensures Budget(s) >= 0
  {
    CompletedBound(p, s);
    assert 3 * p.Size() * (p.Size() - s.completed) >= 0;
  }

  /** The bound asserted by the loop is met with room to spare. */
  lemma MostTurnsFits(n: nat)
    ensures MostTurns(n) <= 4 * (n + 1) * (n + 1)
  {
    assert 4 * (n + 1) * (n + 1) == 4 * n * n + 8 * n + 4;
  }

  // ---------------------------------------------------------------- what each step costs

  lemma PopBudget(p: Plan, s: State)
    requires Shape(p, s) && Placed(p, s, {}) && s.ready != []
    ensures Budget(Pop(s)) == Budget(s) - 2
  {
    var a, s' := s.ready[|s.ready| - 1], Pop(s);
    assert s.ready == s'.ready + [a];
    assert Places(s, a) <= 1;
    LocalBudget(p, s, s', a);
  }

  /** A returned flight that may have to fly again is worth three turns, any other one. */
  lemma TakeBudget(p: Plan, s: State, a: nat)
    requires Shape(p, s) && Placed(p, s, {}) && a < p.Size() && s.slots[a].flight.phase.Landed? && s.inFlight > 0
    ensures Budget(Take(s, a)) == Budget(s) - if s.slots[a].flight.epoch < s.completed then 3 else 1
  {
    assert Places(s, a) <= 1;
    LocalBudget(p, s, Take(s, a), a);
  }

  lemma SubmitBudget(p: Plan, s: State, a: nat)
    requires Shape(p, s) && Placed(p, s, {a}) && a < p.Size()
    ensures Budget(Submit(s, a)) == Budget(s) + 1
  {
    assert Places(s, a) == 0;
    LocalBudget(p, s, Submit(s, a), a);
  }

  lemma RequeueBudget(p: Plan, s: State, a: nat)
    requires Shape(p, s) && Placed(p, s, {a}) && a < p.Size()
    ensures Budget(Requeue(s, a)) == Budget(s) + 2
  {
    assert Places(s, a) == 0;
    LocalBudget(p, s, Requeue(s, a), a);
  }

  /** Starting or returning a job, and the flags, cost nothing. */
  lemma FlagBudget(p: Plan, s: State, s': State, a: nat)
    requires Local(p, s, s', a) && s.ready == s'.ready
    requires s.slots[a].flight.phase == s'.slots[a].flight.phase && s.slots[a].flight.epoch == s'.slots[a].flight.epoch
    ensures Budget(s') == Budget(s)
  {
    LocalBudget(p, s, s', a);
  }

  lemma StartBudget(p: Plan, s: State, a: nat)
    requires Shape(p, s) && Placed(p, s, {}) && a < p.Size() && s.slots[a].flight.phase.Queued?
    ensures Budget(Start(s, a)) == Budget(s)
  {
    assert Places(s, a) <= 1;
    LocalBudget(p, s, Start(s, a), a);
  }

  lemma LandBudget(p: Plan, s: State, a: nat, hit: bool, failed: bool, rows: seq<Obs>, wrote: bool)
    requires Shape(p, s) && Placed(p, s, {}) && a < p.Size() && s.slots[a].flight.phase.Running?
    ensures Budget(Land(s, a, hit, failed, rows, wrote)) == Budget(s)
  {
    assert Places(s, a) <= 1;
    LocalBudget(p, s, Land(s, a, hit, failed, rows, wrote), a);
  }
}
