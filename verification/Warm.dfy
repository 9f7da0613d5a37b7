/** A warm build gives the artifacts of a cold one, whatever the interleaving of either
    (source/core/dag/run.c:673-824, 1083-1176). */
module Warm {
  import opened Paths
  import opened Dag
  import opened Observations
  import opened Targets
  import opened Scheduler
  import opened World
  import Cache

  /** What two builds have in common: the graph, the meaning of its actions, the sources. */
  datatype Setup = Setup(plan: Plan, env: Cache.Env, manifests: Manifests, source: Fs, sourceDigests: seq<Digest>)

  /** The last flight of an action: when it was picked up, when it began to settle its outputs, when it
      finished; what an execution read and when; when each recorded row was resolved, by the lookup of a
      hit or by the commit of an execution; when the lookup went to the two tables. */
  datatype Trip = Trip(started: nat, settled: nat, finished: nat, steps: seq<(Obs, nat)>,
                       checked: Obs -> nat, found: nat, taken: nat)

  /** A build: the state its run ended in, the digest of every artifact, the last flight of every action,
      and the file system and the cache over time. The cache rests from `end` on. */
  datatype Build = Build(state: State, digests: seq<Digest>, trips: seq<Trip>, fs: nat -> Fs,
                         cache: nat -> Cache.Store, end: nat)

  ghost predicate Shaped(u: Setup, b: Build) {
    && Core(u.plan, b.state) && |b.digests| == |u.plan.g.artifacts| == |u.sourceDigests|
    && |b.trips| == u.plan.Size()
    && (forall t :: 0 <= t < |b.digests| && u.plan.g.artifacts[t].producer.None? ==> b.digests[t] == u.sourceDigests[t])
  }

  ghost predicate Finished(u: Setup, b: Build)
    requires Shaped(u, b)
  {
    forall a :: 0 <= a < u.plan.Size() ==> b.state.slots[a].done
  }

  function InputsOf(g: Graph, digests: seq<Digest>, consumes: seq<nat>): seq<(ArtifactKind, Digest)>
    requires |digests| == |g.artifacts| && Below(consumes, |g.artifacts|)
  {
    if consumes == [] then []
    else
      var t := consumes[|consumes| - 1];
      InputsOf(g, digests, consumes[..|consumes| - 1]) + [(g.artifacts[t].kind, digests[t])]
  }

  function NamesOf(g: Graph, produces: seq<nat>): seq<(ArtifactKind, string)>
    requires Below(produces, |g.artifacts|)
  {
    if produces == [] then []
    else
      var t := produces[|produces| - 1];
      NamesOf(g, produces[..|produces| - 1]) + [(g.artifacts[t].kind, g.artifacts[t].name)]
  }

  function DigestsOf(digests: seq<Digest>, produces: seq<nat>): seq<Digest>
    requires Below(produces, |digests|)
  {
    if produces == [] then []
    else DigestsOf(digests, produces[..|produces| - 1]) + [digests[produces[|produces| - 1]]]
  }

  function WeakOf(g: Graph, digests: seq<Digest>, a: nat): Cache.WeakKey
    requires IdsInRange(g) && |digests| == |g.artifacts| && a < |g.actions|
  {
    Cache.WeakKey(g.pinned, g.actions[a].identity, InputsOf(g, digests, g.actions[a].consumes),
                  NamesOf(g, g.actions[a].produces))
  }

  function ProgramOf(u: Setup, b: Build, a: nat): Program
    requires IdsInRange(u.plan.g) && |b.digests| == |u.plan.g.artifacts| && a < u.plan.Size()
  {
    u.env.program(WeakOf(u.plan.g, b.digests, a))
  }

  /** The flight is under way and has not begun to settle. */
  predicate InWindow(b: Build, a: nat, time: nat)
    requires a < |b.trips|
  {
    b.trips[a].started <= time < b.trips[a].settled
  }

  /** How observations are answered at one time, or each at its own. */
  function AnswersAt(u: Setup, b: Build, time: nat): Oracle {
    (o: Obs) => Look(u.env.glob, b.fs(time), o)
  }

  function Checks(u: Setup, b: Build, a: nat): Oracle
    requires a < |b.trips|
  {
    (o: Obs) => Look(u.env.glob, b.fs(b.trips[a].checked(o)), o)
  }

  /** What an observation may depend on. */
  predicate Under(o: Obs, x: Path) {
    Within(o.path, x) || x == o.path
  }

  /** Every observation a build rests on is one the index sees in full. */
  ghost predicate WellObserved(g: Graph, rows: seq<Obs>) {
    forall i :: 0 <= i < |rows| ==> Anchored(rows[i].path) && Covered(g, rows[i])
  }

  /** `o` is one of the unpinned observations that finished discovered action `a` rests on. */
  ghost predicate ReadBy(u: Setup, b: Build, a: nat, o: Obs)
    requires Shaped(u, b) && a < u.plan.Size()
  {
    && u.plan.g.actions[a].kind.Discovered? && b.state.slots[a].done && o.path.root !in u.plan.g.pinned
    && o in Basis(b.state, a) && WellObserved(u.plan.g, Basis(b.state, a))
  }

  // ---------------------------------------------------------------- what is assumed of the world

  /** Starts and finishes happen in the order the epochs tell. */
  ghost predicate EpochsInTime(u: Setup, b: Build)
    requires Shaped(u, b)
  {
    forall a: nat, q: nat | a < u.plan.Size() && q < u.plan.Size() && b.state.slots[a].done && b.state.slots[q].done ::
      b.state.slots[q].doneEpoch <= b.state.slots[a].flight.epoch ==> b.trips[q].finished <= b.trips[a].started
  }

  /** Once an action has finished its outputs are in place; a settle that wrote nothing found them in
      place all along. */
  ghost predicate OutputsInPlace(u: Setup, b: Build)
    requires Shaped(u, b)
  {
    forall q: nat, t: nat, x: Path, time: nat |
      q < u.plan.Size() && b.state.slots[q].done && u.plan.g.Produces(q, t) && Writes(u.plan.g, t, x) ::
      b.trips[q].finished <= time || !b.state.slots[q].wrote ==>
        Holds(b.fs(time), x, Written(u.plan.g, u.manifests, t, b.digests[t], x))
  }

  /** `x` is a source, or an output of `a` itself. */
  ghost predicate Foreign(g: Graph, a: nat, x: Path) {
    forall t :: 0 <= t < |g.artifacts| && Writes(g, t, x) ==> g.Produces(a, t)
  }

  /** While an action is under way, places it observes that no other action produces are as found. Its
      own outputs are among them only if it observes its own outputs. */
  ghost predicate SourcesUntouched(u: Setup, b: Build)
    requires Shaped(u, b)
  {
    forall a: nat, o: Obs, x: Path, time: nat | a < u.plan.Size() && ReadBy(u, b, a, o) && Under(o, x)
      && Foreign(u.plan.g, a, x) ::
      InWindow(b, a, time) ==> SameAt(b.fs(time), u.source, x)
  }

  ghost predicate PinnedUntouched(u: Setup, b: Build) {
    forall x: Path, time: nat | x.root in u.plan.g.pinned :: SameAt(b.fs(time), u.env.pinnedFs, x)
  }

  ghost predicate Honest(u: Setup, b: Build)
    requires Shaped(u, b)
  {
    EpochsInTime(u, b) && OutputsInPlace(u, b) && SourcesUntouched(u, b) && PinnedUntouched(u, b)
  }

  /** The index sees in full whatever a finished discovered action rests on. */
  ghost predicate FullySeen(u: Setup, b: Build)
    requires Shaped(u, b)
  {
    forall a :: 0 <= a < u.plan.Size() && u.plan.g.actions[a].kind.Discovered? && b.state.slots[a].done ==>
      WellObserved(u.plan.g, Basis(b.state, a))
  }

  // ---------------------------------------------------------------- how outputs and entries come about

  /** An execution that made these steps, each answered at its own time, and gave these outputs. */
  ghost predicate Executes(program: Program, glob: Glob, fs: nat -> Fs, steps: seq<(Obs, nat)>, outputs: seq<Digest>)
    decreases |steps|
  {
    match program
    case Return(result) => steps == [] && result == outputs
    case Read(o, next) =>
      && steps != [] && steps[0].0 == o
      && var answer := Look(glob, fs(steps[0].1), o);
         answer in next && Executes(next[answer], glob, fs, steps[1..], outputs)
  }

  function ObservedBy(steps: seq<(Obs, nat)>): (r: seq<Obs>)
    ensures |r| == |steps| && forall i :: 0 <= i < |steps| ==> r[i] == steps[i].0
  {
    seq(|steps|, i requires 0 <= i < |steps| => steps[i].0)
  }

  /** The outputs of `a` came from an execution during its flight, which observed what the run holds
      against it (`Scheduler.Flight.rows`). */
  ghost predicate Ran(u: Setup, b: Build, a: nat)
    requires Shaped(u, b) && a < u.plan.Size()
  {
    var steps, rows := b.trips[a].steps, b.state.slots[a].flight.rows;
    && Executes(ProgramOf(u, b, a), u.env.glob, b.fs, steps, DigestsOf(b.digests, u.plan.g.actions[a].produces))
    && (forall i :: 0 <= i < |steps| ==> InWindow(b, a, steps[i].1))
    && Cache.SameRows(rows, ObservedBy(steps))
    && (!u.plan.g.actions[a].kind.Discovered? ==> rows == [])
  }

  /** The rows a lookup or a commit resolves are resolved while the flight is under way. */
  ghost predicate ChecksInWindow(b: Build, a: nat, rows: seq<Obs>)
    requires a < |b.trips|
  {
    forall o :: o in rows ==> InWindow(b, a, b.trips[a].checked(o))
  }

  /** The outputs of `a` were restored: a lookup found its observation set at one time, resolved every
      row at some time, and took the entry at another. */
  ghost predicate Took(u: Setup, b: Build, a: nat)
    requires Shaped(u, b) && a < u.plan.Size()
  {
    var w, kind := WeakOf(u.plan.g, b.digests, a), u.plan.g.actions[a].kind;
    var table, entries := b.cache(b.trips[a].found).table, b.cache(b.trips[a].taken).entries;
    var offer := Cache.Offer(Cache.Store(table, entries), kind, w, Checks(u, b, a));
    && offer.Some? && Cache.Digests(offer.value) == DigestsOf(b.digests, u.plan.g.actions[a].produces)
    && (kind.Discovered? ==>
          w in table && b.state.table[a] == Some(table[w].rows) && ChecksInWindow(b, a, table[w].rows))
  }

  /** Every finished action executed or was restored, as its last flight says. */
  ghost predicate Accounted(u: Setup, b: Build)
    requires Shaped(u, b)
  {
    forall a :: 0 <= a < u.plan.Size() && b.state.slots[a].done ==>
      if b.state.slots[a].flight.hit then Took(u, b, a) else Ran(u, b, a)
  }

  /** The commit of `a`, once its outputs have settled, makes `to` of `from`. */
  ghost predicate Files(u: Setup, b: Build, a: nat, from: Cache.Store, to: Cache.Store)
    requires Shaped(u, b) && a < u.plan.Size()
  {
    var w, rows := WeakOf(u.plan.g, b.digests, a), b.state.slots[a].flight.rows;
    var key := Cache.CommitKey(u.plan.g.actions[a].kind, w, rows, Checks(u, b, a));
    && b.state.slots[a].done && !b.state.slots[a].flight.hit && ChecksInWindow(b, a, Unpinned(u.plan.g.pinned, rows))
    && exists entry ::
         && Cache.Digests(entry) == DigestsOf(b.digests, u.plan.g.actions[a].produces)
         && to == Cache.Filed(from, key, entry)
  }

  /** What may happen to the cache at one time: nothing, an entry goes, an observation set is recorded
      (by a commit that may fail later), or an execution that finishes files its outputs. */
  ghost predicate CacheStep(u: Setup, b: Build, from: Cache.Store, to: Cache.Store)
    requires Shaped(u, b)
  {
    || to == from
    || (exists key :: to == Cache.Without(from, key))
    || (exists a: nat, rows :: a < u.plan.Size()
          && to == Cache.Noted(from, u.plan.g.actions[a].kind, WeakOf(u.plan.g, b.digests, a), rows))
    || (exists a: nat :: a < u.plan.Size() && Files(u, b, a, from, to))
  }

  ghost predicate CacheSteps(u: Setup, b: Build)
    requires Shaped(u, b)
  {
    forall n: nat :: CacheStep(u, b, b.cache(n), b.cache(n + 1))
  }

  /** A run of the engine, finished or not, in a world that behaved. */
  ghost predicate Happened(u: Setup, b: Build) {
    Shaped(u, b) && Honest(u, b) && FullySeen(u, b) && Accounted(u, b) && CacheSteps(u, b)
  }

  // ---------------------------------------------------------------- reads do not change under way

  /** Whoever writes a file that an observed answer depends on is found by the walk over the index. */
  lemma WriterIsLed(p: Plan, rows: seq<Obs>, o: Obs, t: nat, q: nat, x: Path)
    requires PathsSound(p.g) && Indexes(p.g, p.ix) && WellObserved(p.g, rows) && o in rows && o.path.root !in p.g.pinned
    requires t < |p.g.artifacts| && p.g.Produces(q, t) && Writes(p.g, t, x) && Under(o, x)
    ensures q in p.Leads(rows)
  {
    WritersAreSeen(p.g, o, t, x);
    assert SeenBy(p.g, o, q);
    var i :| 0 <= i < |rows| && rows[i] == o;
    assert Sees(p.g, rows, q);
    VisitsAreScan(p.g, p.ix, rows, q);
  }

  /** Such a writer is `a` itself, or finished before `a` and before its flight began, or wrote nothing. */
  lemma WriterIsBehind(u: Setup, b: Build, a: nat, o: Obs, t: nat, q: nat, x: Path)
    requires Shaped(u, b) && a < u.plan.Size() && ReadBy(u, b, a, o)
    requires t < |u.plan.g.artifacts| && u.plan.g.Produces(q, t) && Writes(u.plan.g, t, x) && Under(o, x)
    requires q != a
    ensures q < u.plan.Size() && b.state.slots[q].done && b.state.slots[q].doneEpoch < b.state.slots[a].doneEpoch
    ensures b.state.slots[q].doneEpoch <= b.state.slots[a].flight.epoch || !b.state.slots[q].wrote
  {
    WriterIsLed(u.plan, Basis(b.state, a), o, t, q, x);
    assert Grounded(u.plan, b.state, a);
  }

  /** While `a` is in flight, a place its reads depend on holds the output of an action that is already
      final, unless only `a` produces it. */
  lemma PlaceIsFinal(u: Setup, b: Build, a: nat, o: Obs, t: nat, x: Path, time: nat)
    requires Shaped(u, b) && Honest(u, b) && a < u.plan.Size() && InWindow(b, a, time) && ReadBy(u, b, a, o)
    requires t < |u.plan.g.artifacts| && Writes(u.plan.g, t, x) && Under(o, x) && !u.plan.g.Produces(a, t)
    ensures var q := u.plan.g.artifacts[t].producer.value;
      && q < u.plan.Size() && u.plan.g.Produces(q, t) && b.state.slots[q].doneEpoch < b.state.slots[a].doneEpoch
      && Holds(b.fs(time), x, Written(u.plan.g, u.manifests, t, b.digests[t], x))
  {
    var q := u.plan.g.artifacts[t].producer.value;
    assert u.plan.g.Produces(q, t);
    WriterIsBehind(u, b, a, o, t, q, x);
    assert b.trips[q].finished <= time || !b.state.slots[q].wrote;
  }

  /** The answer to an observation does not change while the action that made it is under way: what the
      execution read, what its commit resolves and what a lookup resolved are one. */
  lemma ReadsAreStable(u: Setup, b: Build, a: nat, o: Obs, early: nat, late: nat)
    requires Shaped(u, b) && Honest(u, b) && a < u.plan.Size() && ReadBy(u, b, a, o)
    requires InWindow(b, a, early) && InWindow(b, a, late)
    ensures Look(u.env.glob, b.fs(early), o) == Look(u.env.glob, b.fs(late), o)
  {
    var g, f, h := u.plan.g, b.fs(early), b.fs(late);
    forall x | Under(o, x) ensures SameAt(f, h, x) {
      if t :| 0 <= t < |g.artifacts| && Writes(g, t, x) && !g.Produces(a, t) {
        PlaceIsFinal(u, b, a, o, t, x, early);
        PlaceIsFinal(u, b, a, o, t, x, late);
      } else {
        assert Foreign(g, a, x);
      }
    }
    LookFrame(u.env.glob, f, h, o);
  }

  /** Pinned observations are answered alike at any time of any build. */
  lemma PinnedIsStable(u: Setup, b: Build, o: Obs, time: nat)
    requires PinnedUntouched(u, b) && o.path.root in u.plan.g.pinned
    ensures Look(u.env.glob, b.fs(time), o) == Look(u.env.glob, u.env.pinnedFs, o)
  {
    forall x | Under(o, x) ensures SameAt(b.fs(time), u.env.pinnedFs, x) {
      assert x.root == o.path.root;
    }
    LookFrame(u.env.glob, b.fs(time), u.env.pinnedFs, o);
  }

  lemma OraclesArePinned(u: Setup, b: Build, a: nat)
    requires Shaped(u, b) && PinnedUntouched(u, b) && a < u.plan.Size()
    ensures Cache.PinnedAlike(u.env, WeakOf(u.plan.g, b.digests, a), AnswersAt(u, b, b.trips[a].started))
    ensures Cache.PinnedAlike(u.env, WeakOf(u.plan.g, b.digests, a), Checks(u, b, a))
  {
    forall o: Obs | o.path.root in u.plan.g.pinned
      ensures AnswersAt(u, b, b.trips[a].started)(o) == Checks(u, b, a)(o) == Look(u.env.glob, u.env.pinnedFs, o)
    {
      PinnedIsStable(u, b, o, b.trips[a].started);
      PinnedIsStable(u, b, o, b.trips[a].checked(o));
    }
  }

  // ---------------------------------------------------------------- every reachable cache is sound

  /** Reads that are answered as `oracle` says make the execution the one under `oracle`. */
  lemma {:induction false} ExecutesUnder(program: Program, glob: Glob, fs: nat -> Fs, steps: seq<(Obs, nat)>,
                                         outputs: seq<Digest>, oracle: Oracle)
    requires Executes(program, glob, fs, steps, outputs)
    requires forall i :: 0 <= i < |steps| ==> oracle(steps[i].0) == Look(glob, fs(steps[i].1), steps[i].0)
    ensures Outcome(program, oracle) == Some(outputs) && Trace(program, oracle) == ObservedBy(steps)
    decreases |steps|
  {
    if program.Read? {
      ExecutesUnder(program.next[oracle(program.o)], glob, fs, steps[1..], outputs, oracle);
      assert ObservedBy(steps) == [steps[0].0] + ObservedBy(steps[1..]);
    }
  }

  /** An observation of an execution is pinned, or one the action rests on. */
  lemma ReadIsHeld(u: Setup, b: Build, a: nat, i: nat)
    requires Shaped(u, b) && FullySeen(u, b) && a < u.plan.Size() && b.state.slots[a].done
    requires !b.state.slots[a].flight.hit
    requires Ran(u, b, a) && i < |b.trips[a].steps|
    ensures b.trips[a].steps[i].0.path.root in u.plan.g.pinned || ReadBy(u, b, a, b.trips[a].steps[i].0)
  {
    var o := b.trips[a].steps[i].0;
    assert ObservedBy(b.trips[a].steps)[i] == o;
    assert o in b.state.slots[a].flight.rows;
  }

  /** The execution behind a finished action is the one under the answers of the moment it began. */
  lemma RanIsRecorded(u: Setup, b: Build, a: nat)
    requires Shaped(u, b) && Honest(u, b) && FullySeen(u, b) && a < u.plan.Size()
    requires b.state.slots[a].done && !b.state.slots[a].flight.hit && Ran(u, b, a)
    ensures Cache.Recorded(u.env, WeakOf(u.plan.g, b.digests, a), AnswersAt(u, b, b.trips[a].started),
                           b.state.slots[a].flight.rows, DigestsOf(b.digests, u.plan.g.actions[a].produces))
  {
    var steps, oracle := b.trips[a].steps, AnswersAt(u, b, b.trips[a].started);
    forall i | 0 <= i < |steps| ensures oracle(steps[i].0) == Look(u.env.glob, b.fs(steps[i].1), steps[i].0) {
      var o, time := steps[i].0, steps[i].1;
      ReadIsHeld(u, b, a, i);
      if o.path.root in u.plan.g.pinned {
        PinnedIsStable(u, b, o, time);
        PinnedIsStable(u, b, o, b.trips[a].started);
      } else {
        assert InWindow(b, a, time);
        ReadsAreStable(u, b, a, o, time, b.trips[a].started);
      }
    }
    ExecutesUnder(ProgramOf(u, b, a), u.env.glob, b.fs, steps, DigestsOf(b.digests, u.plan.g.actions[a].produces),
      oracle);
    OraclesArePinned(u, b, a);
  }

  /** What a build commits is sound: its commits resolve what its executions read. */
  lemma CommitIsSound(u: Setup, b: Build, a: nat, from: Cache.Store, to: Cache.Store)
    requires Shaped(u, b) && Honest(u, b) && FullySeen(u, b) && Accounted(u, b) && a < u.plan.Size()
    requires Cache.StoreSound(u.env, from) && Files(u, b, a, from, to)
    ensures Cache.StoreSound(u.env, to)
  {
    var w, rows := WeakOf(u.plan.g, b.digests, a), b.state.slots[a].flight.rows;
    var seen, now := AnswersAt(u, b, b.trips[a].started), Checks(u, b, a);
    RanIsRecorded(u, b, a);
    forall o | o in rows && !Cache.IsPinned(w, o) ensures seen(o) == now(o) {
      RowsPartition(u.plan.g.pinned, rows, o);
      assert InWindow(b, a, b.trips[a].checked(o));
      assert ReadBy(u, b, a, o);
      ReadsAreStable(u, b, a, o, b.trips[a].started, b.trips[a].checked(o));
    }
    var entry :| Cache.Digests(entry) == DigestsOf(b.digests, u.plan.g.actions[a].produces)
      && to == Cache.Filed(from, Cache.CommitKey(u.plan.g.actions[a].kind, w, rows, now), entry);
    Cache.FiledIsSound(u.env, from, u.plan.g.actions[a].kind, w, rows, seen, now, entry);
  }

  /** A cache that is sound when a build begins is sound all the way. */
  lemma {:induction false} CacheStaysSound(u: Setup, b: Build, time: nat)
    requires Happened(u, b) && Cache.StoreSound(u.env, b.cache(0))
    ensures Cache.StoreSound(u.env, b.cache(time))
  {
    if time > 0 {
      CacheStaysSound(u, b, time - 1);
      var from, to := b.cache(time - 1), b.cache(time - 1 + 1);
      assert CacheStep(u, b, from, to);
      if a: nat :| a < u.plan.Size() && Files(u, b, a, from, to) {
        CommitIsSound(u, b, a, from, to);
      }
    }
  }

  /** Builds one after the other, of any graphs, in one environment: the first finds the cache empty,
      each finds what the one before left, or less. */
  datatype Past = Past(setup: Setup, build: Build)

  predicate Inherits(later: Cache.Store, earlier: Cache.Store) {
    forall key :: key in later.entries ==> key in earlier.entries && later.entries[key] == earlier.entries[key]
  }

  /** What a series of builds may leave to the next one. */
  ghost predicate Reaches(env: Cache.Env, series: seq<Past>, store: Cache.Store) {
    if series == [] then Inherits(store, Cache.Nothing)
    else
      var last := series[|series| - 1];
      && last.setup.env == env && Happened(last.setup, last.build)
      && Reaches(env, series[..|series| - 1], last.build.cache(0))
      && Inherits(store, last.build.cache(last.build.end))
  }

  /** Every cache that a series of builds can lead to is sound. */
  lemma {:induction false} ReachableIsSound(env: Cache.Env, series: seq<Past>, store: Cache.Store)
    requires Reaches(env, series, store)
    ensures Cache.StoreSound(env, store)
  {
    if series != [] {
      var last := series[|series| - 1];
      ReachableIsSound(env, series[..|series| - 1], last.build.cache(0));
      CacheStaysSound(last.setup, last.build, last.build.end);
    }
  }

  // ---------------------------------------------------------------- two builds

  /** The outputs of an action are what its program gives under the answers of the moment its flight
      began, and every unpinned observation is one it rests on. */
  ghost predicate Justified(u: Setup, b: Build, a: nat)
    requires Shaped(u, b) && a < u.plan.Size()
  {
    var program, oracle := ProgramOf(u, b, a), AnswersAt(u, b, b.trips[a].started);
    && Outcome(program, oracle) == Some(DigestsOf(b.digests, u.plan.g.actions[a].produces))
    && forall o :: o in Trace(program, oracle) ==>
         o.path.root in u.plan.g.pinned || (ReadBy(u, b, a, o) && InWindow(b, a, b.trips[a].started))
  }

  /** An action restored from a sound cache is justified. */
  lemma RestoredIsJustified(u: Setup, b: Build, a: nat)
    requires Shaped(u, b) && Honest(u, b) && FullySeen(u, b) && a < u.plan.Size()
    requires b.state.slots[a].done && b.state.slots[a].flight.hit && Took(u, b, a)
    requires Cache.StoreSound(u.env, b.cache(b.trips[a].taken))
    ensures Justified(u, b, a)
  {
    var w, kind := WeakOf(u.plan.g, b.digests, a), u.plan.g.actions[a].kind;
    var store := Cache.Store(b.cache(b.trips[a].found).table, b.cache(b.trips[a].taken).entries);
    var program, look, oracle := ProgramOf(u, b, a), Checks(u, b, a), AnswersAt(u, b, b.trips[a].started);
    OraclesArePinned(u, b, a);
    assert Cache.StoreSound(u.env, store);
    Cache.OfferIsExecution(u.env, store, kind, w, look);
    forall o | o in Trace(program, look)
      ensures look(o) == oracle(o)
      ensures o.path.root in u.plan.g.pinned || (ReadBy(u, b, a, o) && InWindow(b, a, b.trips[a].started))
    {
      if !Cache.IsPinned(w, o) {
        assert InWindow(b, a, b.trips[a].checked(o));
        assert ReadBy(u, b, a, o);
        ReadsAreStable(u, b, a, o, b.trips[a].checked(o), b.trips[a].started);
      }
    }
    Replay(program, look, oracle);
  }

  /** An executed action is justified. */
  lemma ExecutedIsJustified(u: Setup, b: Build, a: nat)
    requires Shaped(u, b) && Honest(u, b) && FullySeen(u, b) && a < u.plan.Size()
    requires b.state.slots[a].done && !b.state.slots[a].flight.hit && Ran(u, b, a)
    ensures Justified(u, b, a)
  {
    RanIsRecorded(u, b, a);
    forall o | o in Trace(ProgramOf(u, b, a), AnswersAt(u, b, b.trips[a].started)) && o.path.root !in u.plan.g.pinned
      ensures ReadBy(u, b, a, o) && InWindow(b, a, b.trips[a].started)
    {
      assert o in b.state.slots[a].flight.rows;
      var steps := b.trips[a].steps;
      var i :| 0 <= i < |steps| && ObservedBy(steps)[i] == o;
      ReadIsHeld(u, b, a, i);
      assert InWindow(b, a, steps[i].1);
    }
  }

  /** Every action of a build that began with a sound cache is justified. */
  lemma AllJustified(u: Setup, b: Build, a: nat)
    requires Happened(u, b) && Cache.StoreSound(u.env, b.cache(0)) && a < u.plan.Size() && b.state.slots[a].done
    ensures Justified(u, b, a)
  {
    if b.state.slots[a].flight.hit {
      CacheStaysSound(u, b, b.trips[a].taken);
      RestoredIsJustified(u, b, a);
    } else {
      ExecutedIsJustified(u, b, a);
    }
  }

  /** A finished build that began with a sound cache. */
  ghost predicate Complete(u: Setup, b: Build) {
    Happened(u, b) && Finished(u, b) && Cache.StoreSound(u.env, b.cache(0))
  }

  /** Both builds agree on the outputs of `q`. */
  ghost predicate Agree(u: Setup, b: Build, c: Build, q: nat)
    requires |b.digests| == |c.digests|
  {
    forall t :: 0 <= t < |b.digests| && u.plan.g.Produces(q, t) ==> b.digests[t] == c.digests[t]
  }

  /** Both builds agree on everything that finished before `a` in the first. */
  ghost predicate AgreeBefore(u: Setup, b: Build, c: Build, a: nat)
    requires Shaped(u, b) && Shaped(u, c) && a < u.plan.Size()
  {
    forall q :: 0 <= q < u.plan.Size() && b.state.slots[q].doneEpoch < b.state.slots[a].doneEpoch ==> Agree(u, b, c, q)
  }

  /** An observation both builds make is answered alike. */
  lemma AnsweredAlike(u: Setup, b: Build, c: Build, a: nat, o: Obs, early: nat, late: nat)
    requires Shaped(u, b) && Shaped(u, c) && Honest(u, b) && Honest(u, c) && a < u.plan.Size()
    requires AgreeBefore(u, b, c, a)
    requires ReadBy(u, b, a, o) && ReadBy(u, c, a, o) && InWindow(b, a, early) && InWindow(c, a, late)
    ensures Look(u.env.glob, b.fs(early), o) == Look(u.env.glob, c.fs(late), o)
  {
    var g, f, h := u.plan.g, b.fs(early), c.fs(late);
    forall x | Under(o, x) ensures SameAt(f, h, x) {
      if t :| 0 <= t < |g.artifacts| && Writes(g, t, x) && !g.Produces(a, t) {
        PlaceIsFinal(u, b, a, o, t, x, early);
        PlaceIsFinal(u, c, a, o, t, x, late);
        assert Agree(u, b, c, g.artifacts[t].producer.value);
      } else {
        assert Foreign(g, a, x);
      }
    }
    LookFrame(u.env.glob, f, h, o);
  }

  lemma {:induction false} InputsAlike(g: Graph, d: seq<Digest>, e: seq<Digest>, consumes: seq<nat>)
    requires |d| == |e| == |g.artifacts| && Below(consumes, |g.artifacts|)
    requires forall i :: 0 <= i < |consumes| ==> d[consumes[i]] == e[consumes[i]]
    ensures InputsOf(g, d, consumes) == InputsOf(g, e, consumes)
  {
    if consumes != [] {
      InputsAlike(g, d, e, consumes[..|consumes| - 1]);
    }
  }

  lemma {:induction false} DigestsAt(d: seq<Digest>, produces: seq<nat>, i: nat)
    requires Below(produces, |d|) && i < |produces|
    ensures |DigestsOf(d, produces)| == |produces| && DigestsOf(d, produces)[i] == d[produces[i]]
  {
    if i < |produces| - 1 {
      DigestsAt(d, produces[..|produces| - 1], i);
    } else if |produces| > 1 {
      DigestsAt(d, produces[..|produces| - 1], 0);
    }
  }

  /** Equal outputs so far mean an equal weak key, hence the same program. */
  lemma SameProgram(u: Setup, b: Build, c: Build, a: nat)
    requires Shaped(u, b) && Shaped(u, c) && a < u.plan.Size() && b.state.slots[a].done && AgreeBefore(u, b, c, a)
    ensures ProgramOf(u, b, a) == ProgramOf(u, c, a)
  {
    var g, consumes := u.plan.g, u.plan.g.actions[a].consumes;
    forall i | 0 <= i < |consumes| ensures b.digests[consumes[i]] == c.digests[consumes[i]] {
      var t := consumes[i];
      if g.artifacts[t].producer.Some? {
        var q := g.artifacts[t].producer.value;
        assert g.Produces(q, t) && t in consumes && Started(b.state.slots[a]);
        assert Agree(u, b, c, q);
      }
    }
    InputsAlike(g, b.digests, c.digests, consumes);
  }

  /** One action: what was read is answered alike, so the executions are the same. */
  lemma SameOutputs(u: Setup, b: Build, c: Build, a: nat)
    requires Complete(u, b) && Complete(u, c) && a < u.plan.Size() && AgreeBefore(u, b, c, a)
    ensures Agree(u, b, c, a)
  {
    var program, produces := ProgramOf(u, b, a), u.plan.g.actions[a].produces;
    var early, late := b.trips[a].started, c.trips[a].started;
    SameProgram(u, b, c, a);
    AllJustified(u, b, a);
    AllJustified(u, c, a);
    forall o | o in Trace(program, AnswersAt(u, b, early)) && o in Trace(program, AnswersAt(u, c, late))
      ensures AnswersAt(u, b, early)(o) == AnswersAt(u, c, late)(o)
    {
      if o.path.root in u.plan.g.pinned {
        PinnedIsStable(u, b, o, early);
        PinnedIsStable(u, c, o, late);
      } else {
        AnsweredAlike(u, b, c, a, o, early, late);
      }
    }
    Replay(program, AnswersAt(u, b, early), AnswersAt(u, c, late));
    forall t | 0 <= t < |b.digests| && u.plan.g.Produces(a, t) ensures b.digests[t] == c.digests[t] {
      assert t in produces;
      var i :| 0 <= i < |produces| && produces[i] == t;
      DigestsAt(b.digests, produces, i);
      DigestsAt(c.digests, produces, i);
    }
  }

  lemma {:induction false} ActionsAgree(u: Setup, b: Build, c: Build, a: nat)
    requires Complete(u, b) && Complete(u, c) && a < u.plan.Size()
    ensures Agree(u, b, c, a)
    decreases b.state.slots[a].doneEpoch
  {
    forall q | 0 <= q < u.plan.Size() && b.state.slots[q].doneEpoch < b.state.slots[a].doneEpoch
      ensures Agree(u, b, c, q)
    {
      ActionsAgree(u, b, c, q);
    }
    SameOutputs(u, b, c, a);
  }

  /** Two finished builds that began with sound caches give every artifact the same digest. */
  lemma CompleteAlike(u: Setup, b: Build, c: Build)
    requires Complete(u, b) && Complete(u, c)
    ensures b.digests == c.digests
  {
    forall t | 0 <= t < |b.digests| ensures b.digests[t] == c.digests[t] {
      if u.plan.g.artifacts[t].producer.Some? {
        ActionsAgree(u, b, c, u.plan.g.artifacts[t].producer.value);
      }
    }
  }

  /** Warm equals cold: a finished build that began with whatever a series of builds left in the cache
      gives every artifact the digest it has in a finished build of the same setup that began with an
      empty cache, however the flights of either interleaved. */
  lemma WarmEqualsCold(u: Setup, series: seq<Past>, warm: Build, cold: Build)
    requires Happened(u, warm) && Finished(u, warm) && Reaches(u.env, series, warm.cache(0))
    requires Happened(u, cold) && Finished(u, cold) && cold.cache(0) == Cache.Nothing
    ensures warm.digests == cold.digests
  {
    ReachableIsSound(u.env, series, warm.cache(0));
    CompleteAlike(u, warm, cold);
  }
}
