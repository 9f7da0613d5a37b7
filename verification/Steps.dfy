/** What each step of a run does to its state, and why every step keeps the invariant
    (source/core/dag/run.c:939-1176). */
module Steps {
  import opened Paths
  import opened Dag
  import opened Observations
  import opened Targets
  import opened Scheduler

  // ---------------------------------------------------------------- the steps

  function SetFlight(s: State, a: nat, flight: Flight): State
    requires a < |s.slots|
  {
    s.(slots := s.slots[a := s.slots[a].(flight := flight)])
  }

  /** A worker picks the job up and notes how many actions have completed. */
  function Start(s: State, a: nat): State
    requires a < |s.slots|
  {
    SetFlight(s, a, s.slots[a].flight.(phase := Running, epoch := s.completed))
  }

  /** The job comes back from the worker. */
  function Land(s: State, a: nat, hit: bool, failed: bool, rows: seq<Obs>, wrote: bool): State
    requires a < |s.slots|
  {
    var flight := s.slots[a].flight.(phase := Landed, hit := hit, failed := failed, rows := rows);
    s.(slots := s.slots[a := s.slots[a].(flight := flight, wrote := wrote)])
  }

  /** The main thread takes a returned job. */
  function Take(s: State, a: nat): State
    requires a < |s.slots| && s.inFlight > 0
  {
    SetFlight(s, a, s.slots[a].flight.(phase := Idle)).(inFlight := s.inFlight - 1)
  }

  /** The main thread takes the newest ready action. */
  function Pop(s: State): State
    requires s.ready != []
  {
    s.(ready := s.ready[..|s.ready| - 1])
  }

  function Submit(s: State, a: nat): State
    requires a < |s.slots|
  {
    SetFlight(s, a, Flight(Queued, s.slots[a].flight.epoch, false, false, [])).(inFlight := s.inFlight + 1)
  }

  function Requeue(s: State, a: nat): State {
    s.(ready := s.ready + [a])
  }

  function SetParked(s: State, a: nat, parked: bool): State
    requires a < |s.slots|
  {
    s.(slots := s.slots[a := s.slots[a].(parked := parked)])
  }

  /** What a commit does before the action is finished: the recorded set keeps the unpinned rows. */
  function Committed(p: Plan, s: State, a: nat, wrote: bool): State
    requires a < |s.slots| == |s.table| && a < p.Size()
  {
    s.(slots := s.slots[a := s.slots[a].(wrote := wrote)],
       table := if p.g.actions[a].kind.Discovered? then s.table[a := Some(Unpinned(p.g.pinned, s.slots[a].flight.rows))]
         else s.table)
  }

  /** `defer_producer`: wait for `q` unless it is done. */
  function DeferOne(s: State, a: nat, q: nat): State
    requires a < |s.slots| && q < |s.slots|
  {
    if q == a || s.slots[q].done then s
    else
      var waiting := s.slots[q := s.slots[q].(waiters := s.slots[q].waiters + [a])];
      s.(slots := waiting[a := waiting[a].(deferred := waiting[a].deferred + 1)])
  }

  function DeferAll(s: State, a: nat, hits: seq<nat>): (r: State)
    requires a < |s.slots| && Below(hits, |s.slots|)
    ensures |r.slots| == |s.slots|
  {
    if hits == [] then s else DeferOne(DeferAll(s, a, hits[..|hits| - 1]), a, hits[|hits| - 1])
  }

  /** `defer_producer`: `q` finished after `epoch` and changed something. */
  predicate Stale(s: State, a: nat, q: nat, epoch: nat) {
    q != a && q < |s.slots| && s.slots[q].done && s.slots[q].doneEpoch > epoch && s.slots[q].wrote
  }

  // ---------------------------------------------------------------- finishing, as one relation

  /** The consumers of all outputs of `a`, in the order they are told. */
  function Consumers(g: Graph, outputs: seq<nat>): seq<nat>
    requires Below(outputs, |g.artifacts|)
  {
    if outputs == [] then []
    else Consumers(g, outputs[..|outputs| - 1]) + g.artifacts[outputs[|outputs| - 1]].consumers
  }

  /** Only `a` changes to done; flights and waiter lists stay. */
  ghost predicate MarkedDone(before: State, a: nat, after: State) {
    && |after.slots| == |before.slots| && after.table == before.table
    && after.inFlight == before.inFlight && after.err == before.err
    && after.completed == before.completed + 1
    && forall c | 0 <= c < |after.slots| ::
         after.slots[c] == before.slots[c].(pending := after.slots[c].pending, deferred := after.slots[c].deferred,
           done := c == a || before.slots[c].done,
           doneEpoch := if c == a then after.completed else before.slots[c].doneEpoch)
  }

  /** `after` is `before` with the action done, its consumers and waiters told. */
  ghost predicate Finished(p: Plan, before: State, a: nat, after: State)
    requires p.Sound() && Shape(p, before) && a < p.Size()
  {
    var told := Consumers(p.g, p.g.actions[a].produces);
    && MarkedDone(before, a, after)
    && (forall c :: 0 <= c < |after.slots| ==>
         && after.slots[c].pending == before.slots[c].pending - multiset(told)[c]
         && after.slots[c].deferred == before.slots[c].deferred - multiset(before.slots[a].waiters)[c])
    && exists woken :: after.ready == before.ready + woken && NoDup(woken)
         && forall c :: c in woken <==> Woken(before, after, c)
  }

  predicate Woken(before: State, after: State, c: nat) {
    && c < |before.slots| == |after.slots|
    && ((before.slots[c].pending > 0 && after.slots[c].pending == 0)
        || (before.slots[c].deferred > 0 && after.slots[c].deferred == 0))
  }

  // ---------------------------------------------------------------- steps that touch one action

  lemma OpenSame(g: Graph, slots: seq<Slot>, other: seq<Slot>)
    requires |slots| == |other| && forall q :: 0 <= q < |slots| ==> slots[q].done == other[q].done
    ensures Open(g, slots) == Open(g, other)
  {
  }

  /** `s'` differs from `s` at most in the flight, the two flags and the recorded set of the unfinished
      action `a`, in the ready stack and in the number of jobs in flight. */
  ghost predicate Local(p: Plan, s: State, s': State, a: nat) {
    && Shape(p, s) && Shape(p, s') && a < p.Size() && s.completed == s'.completed
    && (forall b :: 0 <= b < p.Size() && b != a ==> s.slots[b] == s'.slots[b] && s.table[b] == s'.table[b])
    && s'.slots[a]
      == s.slots[a].(flight := s'.slots[a].flight, parked := s'.slots[a].parked, wrote := s'.slots[a].wrote)
    && !s.slots[a].done
  }

  lemma LocalCounts(p: Plan, s: State, s': State, a: nat)
    requires Local(p, s, s', a) && Counted(p, s)
    ensures Counted(p, s') && Done(s) == Done(s')
  {
    OpenSame(p.g, s.slots, s'.slots);
    forall c | 0 <= c < p.Size() ensures WaitSum(s.slots, c) == WaitSum(s'.slots, c) {
      WaitSumSame(s.slots, s'.slots, c);
    }
  }

  lemma LocalReads(p: Plan, s: State, s': State, a: nat, b: nat)
    requires Local(p, s, s', a) && b < p.Size() && b != a
    requires LookupSafe(p, s, b) && HitsRecorded(p, s, b) && Grounded(p, s, b)
    ensures LookupSafe(p, s', b) && HitsRecorded(p, s', b) && Grounded(p, s', b)
  {
    assert Basis(s, b) == Basis(s', b);
    assert forall q | 0 <= q < p.Size() ::
      s.slots[q].done == s'.slots[q].done && s.slots[q].doneEpoch == s'.slots[q].doneEpoch;
    assert forall q | 0 <= q < p.Size() && s.slots[q].done :: s.slots[q].wrote == s'.slots[q].wrote;
  }

  /** The inputs of `a` were finished by the time its flight started. */
  ghost predicate InputsBefore(p: Plan, s: State, a: nat)
    requires Shape(p, s) && a < p.Size()
  {
    forall t: nat, q: nat | t in p.g.actions[a].consumes && p.g.Produces(q, t) ::
      q < p.Size() && s.slots[q].done && s.slots[q].doneEpoch <= s.slots[a].flight.epoch
  }

  lemma LocalInputs(p: Plan, s: State, s': State, a: nat)
    requires Local(p, s, s', a) && InputsFirst(p, s) && (Started(s'.slots[a]) ==> InputsBefore(p, s', a))
    ensures InputsFirst(p, s')
  {
    forall b: nat, t: nat, q: nat | b < p.Size() && t in p.g.actions[b].consumes && p.g.Produces(q, t)
      && Started(s'.slots[b])
      ensures q < p.Size() && s'.slots[q].done && s'.slots[q].doneEpoch <= s'.slots[b].flight.epoch
    {
      if b != a {
        assert Started(s.slots[b]);
      }
    }
  }

  lemma LocalFlags(p: Plan, s: State, s': State, a: nat)
    requires Local(p, s, s', a) && Parked(p, s) && OnlyDiscoveredWait(p, s)
    requires s'.slots[a].parked ==>
      p.g.actions[a].kind.Discovered? && !s'.slots[a].flight.hit && s'.slots[a].flight.phase.Idle?
        && s'.slots[a].pending == 0
    ensures Parked(p, s') && OnlyDiscoveredWait(p, s')
  {
    forall q, c | 0 <= q < p.Size() && c in s'.slots[q].waiters
      ensures c < p.Size() && p.g.actions[c].kind.Discovered?
    {
      assert c in s.slots[q].waiters;
    }
  }

  /** Only the touched action needs looking at. */
  lemma LocalKeeps(p: Plan, s: State, s': State, a: nat)
    requires Core(p, s) && Local(p, s, s', a)
    requires s'.inFlight == |Pool(s')|
    requires Started(s'.slots[a]) ==> s'.slots[a].flight.epoch <= s'.completed && InputsBefore(p, s', a)
    requires s'.slots[a].parked ==>
      p.g.actions[a].kind.Discovered? && !s'.slots[a].flight.hit && s'.slots[a].flight.phase.Idle?
        && s'.slots[a].pending == 0
    requires LookupSafe(p, s', a) && HitsRecorded(p, s', a)
    ensures Core(p, s')
  {
    LocalCounts(p, s, s', a);
    LocalFlags(p, s, s', a);
    LocalInputs(p, s, s', a);
    assert Timed(p, s');
    forall b | 0 <= b < p.Size() ensures LookupSafe(p, s', b) && HitsRecorded(p, s', b) && Grounded(p, s', b) {
      if b != a {
        assert LookupSafe(p, s, b) && HitsRecorded(p, s, b) && Grounded(p, s, b);
        LocalReads(p, s, s', a, b);
      }
    }
  }

  /** Places of the other actions do not move when the touched action enters or leaves one. */
  lemma LocalPlaces(p: Plan, s: State, s': State, a: nat, held: set<nat>, held': set<nat>)
    requires Local(p, s, s', a) && Placed(p, s, held) && s.err == s'.err
    requires forall b :: b != a ==> multiset(s.ready)[b] == multiset(s'.ready)[b]
    requires forall b :: b != a ==> (b in held <==> b in held')
    requires Places(s', a) == if a in held' then 0 else 1
    ensures Placed(p, s', held')
  {
    forall b | 0 <= b < p.Size() && b != a ensures Places(s', b) == Places(s, b) {
      assert InPool(s', b) == InPool(s, b);
    }
  }

  /** Places of the touched action itself when it keeps its place. */
  lemma StaysPut(p: Plan, s: State, s': State, a: nat, held: set<nat>)
    requires Local(p, s, s', a) && Placed(p, s, held) && s.err == s'.err && s.ready == s'.ready
    requires InPool(s, a) == InPool(s', a)
    ensures Placed(p, s', held)
  {
    forall b | 0 <= b < p.Size() ensures Places(s', b) == Places(s, b) {
      assert InPool(s', b) == InPool(s, b);
    }
  }

  // ---------------------------------------------------------------- worker steps

  /** An action that is not pending has every producer of its inputs behind it. */
  lemma InputsReady(p: Plan, s: State, a: nat)
    requires p.Sound() && Shape(p, s) && Counted(p, s) && Timed(p, s) && a < p.Size() && s.slots[a].pending == 0
    ensures forall t: nat, q: nat | t in p.g.actions[a].consumes && p.g.Produces(q, t) ::
      q < p.Size() && s.slots[q].done && s.slots[q].doneEpoch <= s.completed
  {
    OccurrencesPositive(p.g.actions[a].consumes, Open(p.g, s.slots));
    forall t: nat, q: nat | t in p.g.actions[a].consumes && p.g.Produces(q, t)
      ensures q < p.Size() && s.slots[q].done && s.slots[q].doneEpoch <= s.completed
    {
      assert t !in Open(p.g, s.slots);
    }
  }

  /** Nothing a recorded set leads to has finished later than now. */
  lemma StartReads(p: Plan, s: State, a: nat)
    requires Shape(p, s) && Timed(p, s) && a < p.Size() && s.slots[a].flight.phase.Queued? && !s.slots[a].done
    requires LookupSafe(p, s, a)
    ensures LookupSafe(p, Start(s, a), a) && HitsRecorded(p, Start(s, a), a)
  {
    var s' := Start(s, a);
    assert forall q | 0 <= q < p.Size() ::
      s.slots[q].done == s'.slots[q].done && s.slots[q].doneEpoch == s'.slots[q].doneEpoch;
  }

  lemma StartKeeps(p: Plan, s: State, a: nat)
    requires Inv(p, s, {}) && a < p.Size() && s.slots[a].flight.phase.Queued?
    ensures Inv(p, Start(s, a), {})
  {
    var s' := Start(s, a);
    assert Places(s, a) <= 1;
    assert Local(p, s, s', a);
    assert Core(p, s') by {
      InputsReady(p, s, a);
      StartReads(p, s, a);
      assert Pool(s') == Pool(s);
      LocalKeeps(p, s, s', a);
    }
    StaysPut(p, s, s', a, {});
  }

  /** What a worker may bring back: failures are not hits, uncacheable actions never hit, and a
      discovered action hits only through its recorded set. */
  predicate MayLand(p: Plan, s: State, a: nat, hit: bool, failed: bool) {
    && a < p.Size() && |s.slots| == |s.table| == p.Size()
    && (hit ==> !failed && !p.g.actions[a].kind.Uncacheable?)
    && (hit && p.g.actions[a].kind.Discovered? ==> s.table[a].Some?)
  }

  lemma LandReads(p: Plan, s: State, a: nat, hit: bool, failed: bool, rows: seq<Obs>, wrote: bool)
    requires Shape(p, s) && MayLand(p, s, a, hit, failed) && s.slots[a].flight.phase.Running? && !s.slots[a].done
    requires LookupSafe(p, s, a)
    ensures LookupSafe(p, Land(s, a, hit, failed, rows, wrote), a)
    ensures HitsRecorded(p, Land(s, a, hit, failed, rows, wrote), a)
  {
    var s' := Land(s, a, hit, failed, rows, wrote);
    assert forall q | 0 <= q < p.Size() && q != a :: s.slots[q] == s'.slots[q];
  }

  lemma LandKeeps(p: Plan, s: State, a: nat, hit: bool, failed: bool, rows: seq<Obs>, wrote: bool)
    requires Inv(p, s, {}) && a < p.Size() && s.slots[a].flight.phase.Running? && MayLand(p, s, a, hit, failed)
    ensures Inv(p, Land(s, a, hit, failed, rows, wrote), {})
  {
    var s' := Land(s, a, hit, failed, rows, wrote);
    assert Places(s, a) <= 1;
    assert Local(p, s, s', a);
    assert Core(p, s') by {
      assert LookupSafe(p, s, a);
      LandReads(p, s, a, hit, failed, rows, wrote);
      assert Pool(s') == Pool(s);
      LocalKeeps(p, s, s', a);
    }
    StaysPut(p, s, s', a, {});
  }

  // ---------------------------------------------------------------- main thread steps

  /** What the main thread knows of an action whose flight is over. */
  ghost predicate Flown(p: Plan, s: State, a: nat)
    requires Shape(p, s) && a < p.Size()
  {
    && s.slots[a].flight.phase.Idle? && s.slots[a].flight.epoch <= s.completed && InputsBefore(p, s, a)
    && (p.g.actions[a].kind.Discovered? && s.slots[a].flight.hit ==>
          s.table[a].Some? && Settled(p, s, a, s.table[a].value, s.slots[a].flight.epoch))
  }

  lemma TakenIsFlown(p: Plan, s: State, a: nat)
    requires Inv(p, s, {}) && a < p.Size() && s.slots[a].flight.phase.Landed? && s.inFlight > 0
    ensures Flown(p, Take(s, a), a)
  {
    var s' := Take(s, a);
    assert LookupSafe(p, s, a) && HitsRecorded(p, s, a);
    assert InputsBefore(p, s', a) by {
      assert Started(s.slots[a]);
    }
    assert forall q | 0 <= q < p.Size() ::
      s.slots[q].done == s'.slots[q].done && s.slots[q].doneEpoch == s'.slots[q].doneEpoch;
  }

  lemma TakeKeeps(p: Plan, s: State, a: nat)
    requires Inv(p, s, {}) && a < p.Size() && s.slots[a].flight.phase.Landed?
    ensures s.inFlight > 0 && Inv(p, Take(s, a), {a}) && Flown(p, Take(s, a), a) && !s.slots[a].parked
  {
    assert a in Pool(s);
    assert Places(s, a) <= 1;
    var s' := Take(s, a);
    assert Local(p, s, s', a);
    assert Places(s', a) == 0 && !s.slots[a].parked;
    TakenIsFlown(p, s, a);
    assert Core(p, s') by {
      assert Pool(s') == Pool(s) - {a};
      LocalKeeps(p, s, s', a);
    }
    LocalPlaces(p, s, s', a, {}, {a});
  }

  lemma PopKeeps(p: Plan, s: State)
    requires Inv(p, s, {}) && s.ready != []
    ensures var a := s.ready[|s.ready| - 1];
      a < p.Size() && Inv(p, Pop(s), {a}) && (s.slots[a].parked ==> Flown(p, Pop(s), a))
  {
    var a, s' := s.ready[|s.ready| - 1], Pop(s);
    assert s.ready == s'.ready + [a];
    assert Places(s, a) <= 1;
    assert Local(p, s, s', a);
    assert Core(p, s') by {
      assert Pool(s') == Pool(s);
      assert LookupSafe(p, s, a) && HitsRecorded(p, s, a);
      LocalKeeps(p, s, s', a);
    }
    LocalPlaces(p, s, s', a, {}, {a});
  }

  /** Everything the recorded set of `a` leads to is done. */
  ghost predicate Cleared(p: Plan, s: State, a: nat)
    requires Shape(p, s) && a < p.Size()
  {
    p.g.actions[a].kind.Discovered? && s.table[a].Some? ==>
      forall q :: q in p.Leads(s.table[a].value) && q != a ==> q < p.Size() && s.slots[q].done
  }

  lemma SubmitReads(p: Plan, s: State, a: nat)
    requires Shape(p, s) && a < p.Size() && !s.slots[a].done && !s.slots[a].parked && Cleared(p, s, a)
    ensures var s' := Submit(s, a);
      Local(p, s, s', a) && LookupSafe(p, s', a) && HitsRecorded(p, s', a) && !Started(s'.slots[a])
  {
    var s' := Submit(s, a);
    assert forall q | 0 <= q < p.Size() :: s'.slots[q].done == s.slots[q].done;
  }

  lemma SubmitPool(s: State, a: nat)
    requires a < |s.slots| && !InPool(s, a) && s.inFlight == |Pool(s)|
    ensures Submit(s, a).inFlight == |Pool(Submit(s, a))|
  {
    assert a !in Pool(s) && Pool(Submit(s, a)) == Pool(s) + {a};
  }

  lemma SubmitCore(p: Plan, s: State, a: nat)
    requires Core(p, s) && a < p.Size() && !InPool(s, a) && !s.slots[a].done && !s.slots[a].parked && Cleared(p, s, a)
    ensures Local(p, s, Submit(s, a), a) && Core(p, Submit(s, a))
  {
    SubmitReads(p, s, a);
    SubmitPool(s, a);
    LocalKeeps(p, s, Submit(s, a), a);
  }

  lemma SubmitKeeps(p: Plan, s: State, a: nat)
    requires Inv(p, s, {a}) && a < p.Size() && !s.slots[a].parked && Cleared(p, s, a)
    ensures Inv(p, Submit(s, a), {})
  {
    assert Places(s, a) == 0;
    var s' := Submit(s, a);
    SubmitCore(p, s, a);
    LocalPlaces(p, s, s', a, {a}, {});
  }

  lemma RequeueKeeps(p: Plan, s: State, a: nat)
    requires Inv(p, s, {a}) && a < p.Size()
    ensures Inv(p, Requeue(s, a), {})
  {
    assert Places(s, a) == 0;
    var s' := Requeue(s, a);
    assert Pool(s') == Pool(s);
    assert LookupSafe(p, s, a) && HitsRecorded(p, s, a);
    LocalKeeps(p, s, s', a);
    LocalPlaces(p, s, s', a, {a}, {});
  }

  /** After an error an action may be dropped where it stands. */
  lemma FailKeeps(p: Plan, s: State, held: set<nat>)
    requires Inv(p, s, held)
    ensures Inv(p, s.(err := true), {}) && Inv(p, s.(err := true), held)
  {
    var s' := s.(err := true);
    assert Pool(s') == Pool(s);
    assert Done(s') == Done(s);
    forall b | 0 <= b < p.Size() ensures Places(s', b) == Places(s, b) {
    }
    assert ReadsSafe(p, s') by {
      forall b | 0 <= b < p.Size() ensures LookupSafe(p, s', b) && HitsRecorded(p, s', b) && Grounded(p, s', b) {
        assert LookupSafe(p, s, b) && HitsRecorded(p, s, b) && Grounded(p, s, b);
        assert Basis(s', b) == Basis(s, b);
      }
    }
  }

  lemma ParkFlown(p: Plan, s: State, a: nat, parked: bool)
    requires Shape(p, s) && a < p.Size() && Flown(p, s, a)
    ensures Shape(p, SetParked(s, a, parked)) && Flown(p, SetParked(s, a, parked), a)
  {
    var s' := SetParked(s, a, parked);
    assert forall q | 0 <= q < p.Size() ::
      s.slots[q].done == s'.slots[q].done && s.slots[q].doneEpoch == s'.slots[q].doneEpoch
        && s.slots[q].wrote == s'.slots[q].wrote;
  }

  lemma ParkKeeps(p: Plan, s: State, a: nat, parked: bool, held: set<nat>)
    requires Inv(p, s, held) && a < p.Size() && Flown(p, s, a) && !s.slots[a].done
    requires parked ==> p.g.actions[a].kind.Discovered? && !s.slots[a].flight.hit && s.slots[a].pending == 0
    ensures Inv(p, SetParked(s, a, parked), held) && Flown(p, SetParked(s, a, parked), a)
  {
    var s' := SetParked(s, a, parked);
    assert Local(p, s, s', a);
    ParkFlown(p, s, a, parked);
    assert Core(p, s') by {
      assert Pool(s') == Pool(s);
      LocalKeeps(p, s, s', a);
    }
    StaysPut(p, s, s', a, held);
  }

  lemma CommittedReads(p: Plan, s: State, a: nat, wrote: bool)
    requires Shape(p, s) && a < p.Size() && Flown(p, s, a) && !s.slots[a].done && !s.slots[a].flight.hit
    ensures var s' := Committed(p, s, a, wrote);
      Local(p, s, s', a) && Flown(p, s', a) && LookupSafe(p, s', a) && HitsRecorded(p, s', a)
  {
    var s' := Committed(p, s, a, wrote);
    assert forall q | 0 <= q < p.Size() ::
      s.slots[q].done == s'.slots[q].done && s.slots[q].doneEpoch == s'.slots[q].doneEpoch;
  }

  lemma CommittedKeeps(p: Plan, s: State, a: nat, wrote: bool)
    requires Inv(p, s, {a}) && a < p.Size() && Flown(p, s, a) && !s.slots[a].flight.hit
    ensures Inv(p, Committed(p, s, a, wrote), {a}) && Flown(p, Committed(p, s, a, wrote), a)
  {
    assert Places(s, a) == 0;
    var s' := Committed(p, s, a, wrote);
    CommittedReads(p, s, a, wrote);
    assert Core(p, s') by {
      assert Pool(s') == Pool(s);
      LocalKeeps(p, s, s', a);
    }
    StaysPut(p, s, s', a, {a});
  }
}
