/** The state of a run and the steps it takes (source/core/dag/run.c:907-1176). */
module Scheduler {
  import opened Paths
  import opened Dag
  import opened Observations
  import opened Targets

  datatype Phase = Idle | Queued | Running | Landed

  /** One trip of an action through the thread pool. `epoch` is the number of completed actions when a
      worker picked it up; `rows` is what the execution observed. */
  datatype Flight = Flight(phase: Phase, epoch: nat, hit: bool, failed: bool, rows: seq<Obs>)

  datatype Slot = Slot(pending: nat, deferred: nat, done: bool, parked: bool, doneEpoch: nat,
                       waiters: seq<nat>, flight: Flight, wrote: bool)

  /** `table[a]` is the observation set recorded for action `a`. */
  datatype State = State(slots: seq<Slot>, ready: seq<nat>, completed: nat, inFlight: nat, err: bool,
                         table: seq<Option<seq<Obs>>>)

  datatype Plan = Plan(g: Graph, ix: Index) {
    ghost predicate Sound() {
      Wf(g) && PathsUnique(g) && Indexes(g, ix)
    }

    function Size(): nat {
      |g.actions|
    }

    function Leads(rows: seq<Obs>): seq<nat> {
      Visits(ix, g.pinned, rows)
    }
  }

  // ---------------------------------------------------------------- counting

  /** How many entries of `xs` belong to `members`. */
  function Occurrences(xs: seq<nat>, members: set<nat>): nat {
    if xs == [] then 0
    else Occurrences(xs[..|xs| - 1], members) + if xs[|xs| - 1] in members then 1 else 0
  }

  /** The artifacts whose producer has not finished. */
  function Open(g: Graph, slots: seq<Slot>): set<nat> {
    set t | 0 <= t < |g.artifacts| && g.artifacts[t].producer.Some?
            && g.artifacts[t].producer.value < |slots| && !slots[g.artifacts[t].producer.value].done
  }

  function Waits(slot: Slot, c: nat): nat {
    if slot.done then 0 else multiset(slot.waiters)[c]
  }

  /** How often `c` stands in the waiter lists of unfinished actions. */
  function WaitSum(slots: seq<Slot>, c: nat): nat {
    if slots == [] then 0 else WaitSum(slots[..|slots| - 1], c) + Waits(slots[|slots| - 1], c)
  }

  function Bit(b: bool): nat {
    if b then 1 else 0
  }

  predicate InPool(s: State, a: nat) {
    a < |s.slots| && !s.slots[a].flight.phase.Idle?
  }

  ghost function Pool(s: State): set<nat> {
    set a | 0 <= a < |s.slots| && InPool(s, a)
  }

  ghost function Done(s: State): set<nat> {
    set a | 0 <= a < |s.slots| && s.slots[a].done
  }

  /** In how many of the five places (pending, ready, in flight, deferred, done) an action is. */
  ghost function Places(s: State, a: nat): nat
    requires a < |s.slots|
  {
    Bit(s.slots[a].pending > 0) + multiset(s.ready)[a] + Bit(InPool(s, a))
    + Bit(s.slots[a].deferred > 0) + Bit(s.slots[a].done)
  }

  // ---------------------------------------------------------------- the invariant

  ghost predicate Shape(p: Plan, s: State) {
    && |s.slots| == |s.table| == p.Size()
    && Below(s.ready, p.Size())
    && forall a :: 0 <= a < p.Size() ==> Below(s.slots[a].waiters, p.Size())
  }

  /** `pending` counts the consumed slots with an unfinished producer; `deferred` the entries in
      unfinished waiter lists. */
  ghost predicate Counted(p: Plan, s: State)
    requires Shape(p, s)
  {
    forall c :: 0 <= c < p.Size() ==>
      && s.slots[c].pending == Occurrences(p.g.actions[c].consumes, Open(p.g, s.slots))
      && s.slots[c].deferred == WaitSum(s.slots, c)
  }

  /** Exactly one place for each action, except those the main thread holds; after an error an action
      may have been dropped. */
  ghost predicate Placed(p: Plan, s: State, held: set<nat>)
    requires Shape(p, s)
  {
    forall a :: 0 <= a < p.Size() ==>
      && (a in held ==> Places(s, a) == 0)
      && Places(s, a) <= 1
      && (!s.err && a !in held ==> Places(s, a) == 1)
  }

  /** A worker has picked the action up at least once since its last dispatch. */
  predicate Started(slot: Slot) {
    slot.flight.phase.Running? || slot.flight.phase.Landed? || slot.parked || slot.done
  }

  ghost predicate Timed(p: Plan, s: State)
    requires Shape(p, s)
  {
    && s.inFlight == |Pool(s)|
    && s.completed == |Done(s)|
    && forall a :: 0 <= a < p.Size() ==>
         && (Started(s.slots[a]) ==> s.slots[a].flight.epoch <= s.completed)
         && (s.slots[a].done ==> s.slots[a].flight.epoch < s.slots[a].doneEpoch <= s.completed)
  }

  ghost predicate Parked(p: Plan, s: State)
    requires Shape(p, s)
  {
    forall a :: 0 <= a < p.Size() && s.slots[a].parked ==>
      && p.g.actions[a].kind.Discovered? && !s.slots[a].flight.hit
      && s.slots[a].flight.phase.Idle? && !s.slots[a].done && s.slots[a].pending == 0
  }

  /** No action starts before the producers of its inputs have finished. */
  ghost predicate InputsFirst(p: Plan, s: State)
    requires Shape(p, s)
  {
    forall a: nat, t: nat, q: nat | a < p.Size() && t in p.g.actions[a].consumes && p.g.Produces(q, t)
      && Started(s.slots[a]) ::
      q < p.Size() && s.slots[q].done && s.slots[q].doneEpoch <= s.slots[a].flight.epoch
  }

  /** Every other action that `rows` leads to is done, at an epoch no later than `epoch` or without
      having written in its last settle. */
  ghost predicate Settled(p: Plan, s: State, a: nat, rows: seq<Obs>, epoch: nat)
    requires Shape(p, s)
  {
    forall q :: q in p.Leads(rows) && q != a ==>
      q < p.Size() && s.slots[q].done && (s.slots[q].doneEpoch <= epoch || !s.slots[q].wrote)
  }

  /** The observations a finished action rests on: the recorded set it was restored from, or its own. */
  function Basis(s: State, a: nat): seq<Obs>
    requires a < |s.slots| == |s.table|
  {
    if s.slots[a].flight.hit then (if s.table[a].Some? then s.table[a].value else []) else s.slots[a].flight.rows
  }

  /** A dispatched action with a recorded set has everything that set leads to behind it. */
  ghost predicate LookupSafe(p: Plan, s: State, a: nat)
    requires Shape(p, s) && a < p.Size()
  {
    p.g.actions[a].kind.Discovered? && InPool(s, a) && s.table[a].Some? ==>
      && (forall q :: q in p.Leads(s.table[a].value) && q != a ==> q < p.Size() && s.slots[q].done)
      && (Started(s.slots[a]) ==> Settled(p, s, a, s.table[a].value, s.slots[a].flight.epoch))
  }

  /** A hit of a discovered action was restored from a recorded set. */
  ghost predicate HitsRecorded(p: Plan, s: State, a: nat)
    requires Shape(p, s) && a < p.Size()
  {
    p.g.actions[a].kind.Discovered? && (s.slots[a].flight.phase.Landed? || s.slots[a].done) && s.slots[a].flight.hit ==>
      s.table[a].Some?
  }

  /** What a finished discovered action read was final, and final before it finished. */
  ghost predicate Grounded(p: Plan, s: State, a: nat)
    requires Shape(p, s) && a < p.Size()
  {
    p.g.actions[a].kind.Discovered? && s.slots[a].done ==>
      && Settled(p, s, a, Basis(s, a), s.slots[a].flight.epoch)
      && (forall q :: q in p.Leads(Basis(s, a)) && q != a ==> s.slots[q].doneEpoch < s.slots[a].doneEpoch)
  }

  ghost predicate ReadsSafe(p: Plan, s: State)
    requires Shape(p, s)
  {
    forall a :: 0 <= a < p.Size() ==> LookupSafe(p, s, a) && HitsRecorded(p, s, a) && Grounded(p, s, a)
  }

  /** Only discovered actions are ever deferred. */
  ghost predicate OnlyDiscoveredWait(p: Plan, s: State)
    requires Shape(p, s)
  {
    forall q, c :: 0 <= q < p.Size() && c in s.slots[q].waiters ==> c < p.Size() && p.g.actions[c].kind.Discovered?
  }

  ghost predicate Core(p: Plan, s: State) {
    && p.Sound() && Shape(p, s) && Counted(p, s) && Timed(p, s)
    && Parked(p, s) && InputsFirst(p, s) && ReadsSafe(p, s) && OnlyDiscoveredWait(p, s)
  }

  ghost predicate Inv(p: Plan, s: State, held: set<nat>) {
    Core(p, s) && Placed(p, s, held)
  }

  // ---------------------------------------------------------------- facts about the counts

  lemma {:induction false} OccurrencesSplit(xs: seq<nat>, members: set<nat>, part: set<nat>)
    requires part <= members
    ensures Occurrences(xs, members) == Occurrences(xs, members - part) + Occurrences(xs, part)
  {
    if xs != [] {
      OccurrencesSplit(xs[..|xs| - 1], members, part);
    }
  }

  lemma {:induction false} OccurrencesOfOne(xs: seq<nat>, t: nat)
    ensures Occurrences(xs, {t}) == multiset(xs)[t]
  {
    if xs != [] {
      OccurrencesOfOne(xs[..|xs| - 1], t);
      assert xs == xs[..|xs| - 1] + [xs[|xs| - 1]];
    }
  }

  lemma {:induction false} OccurrencesPositive(xs: seq<nat>, members: set<nat>)
    ensures Occurrences(xs, members) > 0 <==> exists x :: x in xs && x in members
  {
    if xs != [] {
      var front, last := xs[..|xs| - 1], xs[|xs| - 1];
      OccurrencesPositive(front, members);
      assert xs == front + [last];
      assert forall x :: x in xs <==> x in front || x == last;
    }
  }

  lemma {:induction false} WaitSumUpdate(slots: seq<Slot>, q: nat, x: Slot, c: nat)
    requires q < |slots|
    ensures WaitSum(slots[q := x], c) == WaitSum(slots, c) - Waits(slots[q], c) + Waits(x, c)
    ensures WaitSum(slots, c) >= Waits(slots[q], c)
  {
    var k := |slots| - 1;
    if q == k {
      assert slots[q := x][..k] == slots[..k];
    } else {
      WaitSumUpdate(slots[..k], q, x, c);
      assert slots[q := x][..k] == slots[..k][q := x];
    }
  }

  lemma {:induction false} WaitSumSame(slots: seq<Slot>, other: seq<Slot>, c: nat)
    requires |slots| == |other| && forall q :: 0 <= q < |slots| ==> Waits(slots[q], c) == Waits(other[q], c)
    ensures WaitSum(slots, c) == WaitSum(other, c)
  {
    if slots != [] {
      WaitSumSame(slots[..|slots| - 1], other[..|other| - 1], c);
    }
  }

  lemma {:induction false} WaitSumPositive(slots: seq<Slot>, c: nat)
    requires WaitSum(slots, c) > 0
    ensures exists q :: 0 <= q < |slots| && !slots[q].done && c in slots[q].waiters
  {
    var k := |slots| - 1;
    if Waits(slots[k], c) > 0 {
      assert c in slots[k].waiters;
    } else {
      WaitSumPositive(slots[..k], c);
      var q :| 0 <= q < k && !slots[..k][q].done && c in slots[..k][q].waiters;
      assert slots[q] == slots[..k][q];
    }
  }

  /** Everything an observation leads to is an action of the graph. */
  lemma {:induction false} LeadsInRange(p: Plan, rows: seq<Obs>, q: nat)
    requires p.Sound() && q in p.Leads(rows)
    ensures q < p.Size()
  {
    var front, o := rows[..|rows| - 1], rows[|rows| - 1];
    if q in p.Leads(front) {
      LeadsInRange(p, front, q);
    } else {
      VisitInRange(p.g, p.ix, o, q);
    }
  }
}
