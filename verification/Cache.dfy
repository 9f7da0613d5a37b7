/** The two-level cache (source/core/dag/run.c:480-495, 673-824; source/core/dag/store.c:433-456).
    Digests are injective, so a key is what was hashed into it. */
module Cache {
  import opened Paths
  import opened Dag
  import opened Observations
  import opened World

  /** What `spn_dag_weak_key` hashes. */
  datatype WeakKey = WeakKey(pinned: set<nat>, identity: nat, inputs: seq<(ArtifactKind, Digest)>,
                             outputs: seq<(ArtifactKind, string)>)

  /** A recorded observation set: the digest of the pinned rows, and the other rows. */
  datatype PathSet = PathSet(pinned: seq<Obs>, rows: seq<Obs>)

  /** What the action cache is keyed by: the weak key for static actions, and what
      `spn_dag_strong_key` hashes for discovered ones. */
  datatype Key = Weak(weak: WeakKey) | Strong(weak: WeakKey, set_: PathSet, answers: seq<Answer>)

  /** A recorded list of outputs, each with its name. */
  type Entry = seq<(string, Digest)>

  /** The observation table and the action cache. */
  datatype Store = Store(table: map<WeakKey, PathSet>, entries: map<Key, Entry>)

  const Nothing := Store(map[], map[])

  /** The meaning of actions, and what the pinned roots hold for ever. */
  datatype Env = Env(program: WeakKey -> Program, glob: Glob, pinnedFs: Fs)

  predicate IsPinned(w: WeakKey, o: Obs) {
    o.path.root in w.pinned
  }

  function SetOf(w: WeakKey, rows: seq<Obs>): PathSet {
    PathSet(PinnedRows(w.pinned, rows), Unpinned(w.pinned, rows))
  }

  function Answers(rows: seq<Obs>, oracle: Oracle): (r: seq<Answer>)
    ensures |r| == |rows| && forall i :: 0 <= i < |rows| ==> r[i] == oracle(rows[i])
  {
    if rows == [] then [] else Answers(rows[..|rows| - 1], oracle) + [oracle(rows[|rows| - 1])]
  }

  predicate AllResolve(rows: seq<Obs>, oracle: Oracle) {
    forall i :: 0 <= i < |rows| ==> Resolves(rows[i], oracle(rows[i]))
  }

  function Digests(entry: Entry): (r: seq<Digest>)
    ensures |r| == |entry| && forall i :: 0 <= i < |entry| ==> r[i] == entry[i].1
  {
    seq(|entry|, i requires 0 <= i < |entry| => entry[i].1)
  }

  /** The entry has one output for each the action produces, under the same names. */
  predicate Fits(entry: Entry, w: WeakKey) {
    |entry| == |w.outputs| && forall i :: 0 <= i < |entry| ==> entry[i].0 == w.outputs[i].1
  }

  function EntryOf(w: WeakKey, outputs: seq<Digest>): (r: Entry)
    requires |outputs| == |w.outputs|
    ensures Fits(r, w) && Digests(r) == outputs
  {
    seq(|outputs|, i requires 0 <= i < |outputs| => (w.outputs[i].1, outputs[i]))
  }

  // ---------------------------------------------------------------- what the operations do

  /** The key of a set of rows, unless a row does not resolve. */
  function StrongOf(w: WeakKey, set_: PathSet, look: Oracle): Option<Key> {
    if AllResolve(set_.rows, look) then Some(Strong(w, set_, Answers(set_.rows, look))) else None
  }

  /** The key a lookup ends up with. `look` is how the file system answers. */
  function SoughtKey(store: Store, kind: ActionKind, w: WeakKey, look: Oracle): Option<Key> {
    match kind
    case Static => Some(Weak(w))
    case Discovered => if w in store.table then StrongOf(w, store.table[w], look) else None
    case Uncacheable => None
  }

  /** What a lookup finds to restore. */
  function Offer(store: Store, kind: ActionKind, w: WeakKey, look: Oracle): Option<Entry> {
    var key := SoughtKey(store, kind, w, look);
    if key.Some? && key.value in store.entries && Fits(store.entries[key.value], w)
    then Some(store.entries[key.value]) else None
  }

  /** The store without one entry. */
  function Without(store: Store, key: Key): Store {
    store.(entries := store.entries - {key})
  }

  /** `spn_dag_obs_set_put`, for discovered actions. */
  function Noted(store: Store, kind: ActionKind, w: WeakKey, rows: seq<Obs>): Store {
    if kind.Discovered? then store.(table := store.table[w := SetOf(w, rows)]) else store
  }

  /** The key a commit files under. */
  function CommitKey(kind: ActionKind, w: WeakKey, rows: seq<Obs>, now: Oracle): Option<Key> {
    match kind
    case Static => Some(Weak(w))
    case Discovered => StrongOf(w, SetOf(w, rows), now)
    case Uncacheable => None
  }

  /** `record`. */
  function Filed(store: Store, key: Option<Key>, entry: Entry): Store {
    if key.Some? then store.(entries := store.entries[key.value := entry]) else store
  }

  // ---------------------------------------------------------------- what entries mean

  /** Pinned roots answer as they always do. */
  ghost predicate PinnedAlike(env: Env, w: WeakKey, oracle: Oracle) {
    forall o: Obs :: IsPinned(w, o) ==> oracle(o) == Look(env.glob, env.pinnedFs, o)
  }

  ghost predicate SameRows(rows: seq<Obs>, trace: seq<Obs>) {
    forall o :: o in rows <==> o in trace
  }

  /** An execution under `oracle` that observed `rows`. */
  ghost predicate Recorded(env: Env, w: WeakKey, oracle: Oracle, rows: seq<Obs>, outputs: seq<Digest>) {
    && Outcome(env.program(w), oracle) == Some(outputs)
    && SameRows(rows, Trace(env.program(w), oracle)) && PinnedAlike(env, w, oracle)
  }

  /** An entry tells what some execution under the keyed answers produced. */
  ghost predicate EntrySound(env: Env, key: Key, outputs: seq<Digest>) {
    match key
    case Weak(w) => env.program(w) == Return(outputs)
    case Strong(w, set_, answers) =>
      exists oracle: Oracle, rows: seq<Obs> :: Recorded(env, w, oracle, rows, outputs)
        && set_ == SetOf(w, rows) && answers == Answers(set_.rows, oracle)
  }

  ghost predicate StoreSound(env: Env, store: Store) {
    forall key :: key in store.entries ==> EntrySound(env, key, Digests(store.entries[key]))
  }

  lemma AnswersAlike(rows: seq<Obs>, f: Oracle, g: Oracle)
    requires forall o :: o in rows ==> f(o) == g(o)
    ensures Answers(rows, f) == Answers(rows, g)
  {
    forall i | 0 <= i < |rows| ensures f(rows[i]) == g(rows[i]) {
      assert rows[i] in rows;
    }
  }

  /** The central fact: under equal keys, what was recorded is what executing now would produce, and
      executing now would read nothing outside the recorded set and the pinned roots. */
  lemma HitIsExecution(env: Env, w: WeakKey, set_: PathSet, look: Oracle, outputs: seq<Digest>)
    requires EntrySound(env, Strong(w, set_, Answers(set_.rows, look)), outputs) && PinnedAlike(env, w, look)
    ensures Outcome(env.program(w), look) == Some(outputs)
    ensures forall o :: o in Trace(env.program(w), look) ==> IsPinned(w, o) || o in set_.rows
  {
    var oracle: Oracle, rows: seq<Obs> :| Recorded(env, w, oracle, rows, outputs)
      && set_ == SetOf(w, rows) && Answers(set_.rows, look) == Answers(set_.rows, oracle);
    var program := env.program(w);
    forall o | o in Trace(program, oracle) ensures look(o) == oracle(o) && (IsPinned(w, o) || o in set_.rows) {
      RowsPartition(w.pinned, rows, o);
      if !IsPinned(w, o) {
        var i :| 0 <= i < |set_.rows| && set_.rows[i] == o;
        assert Answers(set_.rows, look)[i] == Answers(set_.rows, oracle)[i];
      }
    }
    Replay(program, oracle, look);
  }

  /** Whatever a sound store offers is what executing would give under the answers of the lookup, with
      reads in the recorded set or under pinned roots only. */
  lemma OfferIsExecution(env: Env, store: Store, kind: ActionKind, w: WeakKey, look: Oracle)
    requires StoreSound(env, store) && PinnedAlike(env, w, look) && Offer(store, kind, w, look).Some?
    ensures Outcome(env.program(w), look) == Some(Digests(Offer(store, kind, w, look).value))
    ensures Fits(Offer(store, kind, w, look).value, w) && !kind.Uncacheable?
    ensures forall o :: o in Trace(env.program(w), look) ==>
      IsPinned(w, o) || (kind.Discovered? && w in store.table && o in store.table[w].rows)
  {
    var key, entry := SoughtKey(store, kind, w, look).value, Offer(store, kind, w, look).value;
    assert EntrySound(env, key, Digests(entry));
    if kind.Discovered? {
      HitIsExecution(env, w, store.table[w], look, Digests(entry));
    }
  }

  /** A program that reads has something to show for it. */
  lemma ReadsAreTraced(program: Program, oracle: Oracle)
    ensures program.Read? ==> exists o :: o in Trace(program, oracle)
  {
    if program.Read? {
      assert program.o in Trace(program, oracle);
    }
  }

  /** What a commit files is sound if the unpinned rows resolve to what the execution was told, although
      the pinned rows are dropped from the stored set. */
  lemma FiledIsSound(env: Env, store: Store, kind: ActionKind, w: WeakKey, rows: seq<Obs>, seen: Oracle, now: Oracle,
                     entry: Entry)
    requires StoreSound(env, store) && Recorded(env, w, seen, rows, Digests(entry))
    requires !kind.Discovered? ==> rows == []
    requires forall o :: o in rows && !IsPinned(w, o) ==> seen(o) == now(o)
    ensures StoreSound(env, Filed(store, CommitKey(kind, w, rows, now), entry))
  {
    var key := CommitKey(kind, w, rows, now);
    match kind
    case Uncacheable =>
    case Static =>
      ReadsAreTraced(env.program(w), seen);
      assert EntrySound(env, key.value, Digests(entry));
    case Discovered =>
      var set_ := SetOf(w, rows);
      forall o | o in set_.rows ensures seen(o) == now(o) {
        RowsPartition(w.pinned, rows, o);
      }
      AnswersAlike(set_.rows, seen, now);
      assert key.Some? ==> EntrySound(env, key.value, Digests(entry));
  }

  // ---------------------------------------------------------------- the cache in place

  class TwoLevel {
    var table: map<WeakKey, PathSet>
    var entries: map<Key, Entry>

    constructor ()
      ensures Contents() == Nothing
    {
      table, entries := map[], map[];
    }

    function Contents(): Store
      reads this
    {
      Store(table, entries)
    }

    /** `restore_entry` in front of the settle: as many outputs as are produced, under the same names. */
    static method Compare(entry: Entry, w: WeakKey) returns (fits: bool)
      ensures fits <==> Fits(entry, w)
    {
      if |entry| != |w.outputs| {
        return false;
      }
      for it := 0 to |entry|
        invariant forall i :: 0 <= i < it ==> entry[i].0 == w.outputs[i].1
      {
        if entry[it].0 != w.outputs[it].1 {
          return false;
        }
      }
      return true;
    }

    /** `try_restore`: an entry that cannot be restored is dropped. `settles` says whether settling the
        restored outputs succeeds. */
    method TryRestore(key: Key, w: WeakKey, settles: bool) returns (hit: bool, entry: Entry)
      modifies this`entries
      ensures hit <==> key in old(entries) && Fits(old(entries)[key], w) && settles
      ensures hit ==> entry == old(entries)[key]
      ensures Contents() == if hit then old(Contents()) else Without(old(Contents()), key)
    {
      hit, entry := false, [];
      if key !in entries {
        assert entries - {key} == entries;
        return;
      }
      var fits := Compare(entries[key], w);
      if fits && settles {
        return true, entries[key];
      }
      entries := entries - {key};
    }

    /** `lookup`. `look` is how the file system answers the recorded rows. */
    method Lookup(kind: ActionKind, w: WeakKey, look: Oracle, settles: bool) returns (hit: bool, entry: Entry)
      modifies this`entries
      ensures hit <==> Offer(old(Contents()), kind, w, look).Some? && settles
      ensures hit ==> entry == Offer(old(Contents()), kind, w, look).value
      ensures var key := SoughtKey(old(Contents()), kind, w, look);
        Contents() == if hit || key.None? then old(Contents()) else Without(old(Contents()), key.value)
    {
      hit, entry := false, [];
      match kind
      case Static =>
        hit, entry := TryRestore(Weak(w), w, settles);
      case Discovered =>
        if w in table {
          var set_ := table[w];
          var resolved := ResolveAll(set_.rows, look);
          if resolved {
            hit, entry := TryRestore(Strong(w, set_, Answers(set_.rows, look)), w, settles);
          }
        }
      case Uncacheable =>
    }

    /** `resolve_observations`: gives up at the first row that does not resolve. */
    static method ResolveAll(rows: seq<Obs>, look: Oracle) returns (resolved: bool)
      ensures resolved <==> AllResolve(rows, look)
    {
      for i := 0 to |rows|
        invariant AllResolve(rows[..i], look)
      {
        assert rows[..i + 1] == rows[..i] + [rows[i]];
        if !Resolves(rows[i], look(rows[i])) {
          return false;
        }
      }
      assert rows[..|rows|] == rows;
      return true;
    }

    /** `commit` of an execution that observed `rows`; `now` is how the file system answers them at the
        commit. `settles` says whether materialising the outputs succeeds. */
    method Commit(kind: ActionKind, w: WeakKey, rows: seq<Obs>, now: Oracle, outputs: seq<Digest>, settles: bool)
      requires |outputs| == |w.outputs|
      modifies this
      ensures var noted := Noted(old(Contents()), kind, w, rows);
        Contents() == if settles then Filed(noted, CommitKey(kind, w, rows, now), EntryOf(w, outputs)) else noted
    {
      match kind
      case Uncacheable =>
      case Static =>
        if settles {
          entries := entries[Weak(w) := EntryOf(w, outputs)];
        }
      case Discovered =>
        var set_ := SetOf(w, rows);
        table := table[w := set_];
        var resolved := ResolveAll(set_.rows, now);
        if settles && resolved {
          entries := entries[Strong(w, set_, Answers(set_.rows, now)) := EntryOf(w, outputs)];
        }
    }
  }

  // ---------------------------------------------------------------- committed, then looked up

  /** An entry of the right names is filed for action `w` with observation set `set_` and these answers. */
  ghost predicate FiledFor(entries: map<Key, Entry>, w: WeakKey, set_: PathSet, look: Oracle) {
    exists key :: key in entries && key.Strong? && key.weak == w && key.set_ == set_ && Fits(entries[key], w)
      && |key.answers| == |set_.rows| && forall i :: 0 <= i < |set_.rows| ==> key.answers[i] == look(set_.rows[i])
  }

  lemma FiledForMeans(entries: map<Key, Entry>, w: WeakKey, set_: PathSet, look: Oracle)
    ensures FiledFor(entries, w, set_, look) <==>
      var key := Strong(w, set_, Answers(set_.rows, look)); key in entries && Fits(entries[key], w)
  {
    forall answers: seq<Answer>
      | |answers| == |set_.rows| && forall i :: 0 <= i < |answers| ==> answers[i] == look(set_.rows[i])
      ensures answers == Answers(set_.rows, look)
    {
    }
  }

  /** Rows are answered alike exactly when their answers are the same list. */
  lemma SameAnswers(rows: seq<Obs>, f: Oracle, g: Oracle)
    ensures Answers(rows, f) == Answers(rows, g) <==> forall o :: o in rows ==> f(o) == g(o)
  {
    if Answers(rows, f) == Answers(rows, g) {
      forall o | o in rows ensures f(o) == g(o) {
        var i :| 0 <= i < |rows| && rows[i] == o;
        assert Answers(rows, f)[i] == Answers(rows, g)[i];
      }
    } else if forall o :: o in rows ==> f(o) == g(o) {
      AnswersAlike(rows, f, g);
    }
  }

  /** The unpinned rows, answered as they were. */
  ghost predicate AnsweredAs(w: WeakKey, rows: seq<Obs>, now: Oracle, look: Oracle) {
    forall o :: o in rows && o.path.root !in w.pinned ==> look(o) == now(o)
  }

  ghost predicate UnpinnedResolve(w: WeakKey, rows: seq<Obs>, look: Oracle) {
    forall o :: o in rows && o.path.root !in w.pinned ==> !(o.kind.ObsFile? && look(o).Missing?)
  }

  lemma UnpinnedRows(w: WeakKey, rows: seq<Obs>, now: Oracle, look: Oracle)
    ensures AllResolve(Unpinned(w.pinned, rows), look) <==> UnpinnedResolve(w, rows, look)
    ensures Answers(Unpinned(w.pinned, rows), look) == Answers(Unpinned(w.pinned, rows), now)
       <==> AnsweredAs(w, rows, now, look)
  {
    var kept := Unpinned(w.pinned, rows);
    SameAnswers(kept, look, now);
    forall o ensures o in kept <==> o in rows && o.path.root !in w.pinned {
      RowsPartition(w.pinned, rows, o);
    }
    assert AllResolve(kept, look) <==> forall o :: o in kept ==> Resolves(o, look(o)) by {
      forall i | 0 <= i < |kept| ensures kept[i] in kept {
      }
    }
  }

  /** What a commit makes of a store. */
  function Committed(store: Store, kind: ActionKind, w: WeakKey, rows: seq<Obs>, now: Oracle,
                     outputs: seq<Digest>): Store
    requires |outputs| == |w.outputs|
  {
    Filed(Noted(store, kind, w, rows), CommitKey(kind, w, rows, now), EntryOf(w, outputs))
  }

  lemma StaticIsFound(store: Store, w: WeakKey, rows: seq<Obs>, now: Oracle, look: Oracle, outputs: seq<Digest>)
    requires |outputs| == |w.outputs|
    ensures Offer(Committed(store, Static, w, rows, now, outputs), Static, w, look) == Some(EntryOf(w, outputs))
  {
  }

  lemma DiscoveredIsFound(store: Store, w: WeakKey, rows: seq<Obs>, now: Oracle, look: Oracle, outputs: seq<Digest>)
    requires |outputs| == |w.outputs|
    ensures var offer := Offer(Committed(store, Discovered, w, rows, now, outputs), Discovered, w, look);
      && (offer.Some? <==> UnpinnedResolve(w, rows, look)
                           && (AnsweredAs(w, rows, now, look) || FiledFor(store.entries, w, SetOf(w, rows), look)))
      && (offer.Some? && AnsweredAs(w, rows, now, look) ==> offer.value == EntryOf(w, outputs))
  {
    UnpinnedRows(w, rows, now, look);
    UnpinnedRows(w, rows, look, now);
    FiledForMeans(store.entries, w, SetOf(w, rows), look);
  }

  /** Commits and lookups of one action leave the entries of the others alone. */
  lemma OthersStay(store: Store, kind: ActionKind, w: WeakKey, rows: seq<Obs>, now: Oracle, look: Oracle,
                   outputs: seq<Digest>)
    requires |outputs| == |w.outputs|
    ensures var after := Committed(store, kind, w, rows, now, outputs);
      && (SoughtKey(after, kind, w, look).Some? ==> SoughtKey(after, kind, w, look).value.weak == w)
      && (forall key: Key :: key.weak != w && key in store.entries ==>
            key in after.entries && after.entries[key] == store.entries[key])
      && (forall v :: v != w && v in store.table ==> v in after.table && after.table[v] == store.table[v])
  {
  }

  lemma RecordedRows(w: WeakKey, rows: seq<Obs>)
    ensures forall o :: o in SetOf(w, rows).rows <==> o in rows && o.path.root !in w.pinned
  {
    forall o ensures o in SetOf(w, rows).rows <==> o in rows && o.path.root !in w.pinned {
      RowsPartition(w.pinned, rows, o);
    }
  }

  predicate IsEntryOf(entry: Entry, w: WeakKey, outputs: seq<Digest>) {
    |entry| == |outputs| == |w.outputs| && forall i :: 0 <= i < |outputs| ==> entry[i] == (w.outputs[i].1, outputs[i])
  }

  lemma EntryIs(w: WeakKey, outputs: seq<Digest>)
    requires |outputs| == |w.outputs|
    ensures IsEntryOf(EntryOf(w, outputs), w, outputs)
  {
  }

  /** Whatever a cache held, a lookup behind a commit finds what was committed: always for a static action,
      and for a discovered one if its unpinned rows resolve and are answered as they were. When some are
      answered otherwise it finds only what had been filed for those answers. */
  method CommitThenLookup(cache: TwoLevel, kind: ActionKind, w: WeakKey, rows: seq<Obs>, now: Oracle, look: Oracle,
                          outputs: seq<Digest>)
    returns (hit: bool, entry: Entry)
    requires |outputs| == |w.outputs|
    modifies cache
    ensures kind.Static? ==> hit
    ensures kind.Uncacheable? ==> !hit && cache.entries == old(cache.entries) && cache.table == old(cache.table)
    ensures kind.Discovered? ==> w in cache.table
    ensures kind.Discovered? ==> forall o :: o in cache.table[w].rows <==> o in rows && o.path.root !in w.pinned
    ensures kind.Discovered? ==>
      (hit <==> UnpinnedResolve(w, rows, look)
                && (AnsweredAs(w, rows, now, look) || FiledFor(old(cache.entries), w, cache.table[w], look)))
    ensures hit && (kind.Static? || AnsweredAs(w, rows, now, look)) ==> IsEntryOf(entry, w, outputs)
    ensures forall v :: v != w && v in old(cache.table) ==> v in cache.table && cache.table[v] == old(cache.table)[v]
    ensures forall key: Key :: key.weak != w && key in old(cache.entries) ==>
      key in cache.entries && cache.entries[key] == old(cache.entries)[key]
  {
    hide AnsweredAs, UnpinnedResolve, FiledFor, AllResolve, SetOf, EntryOf;
    ghost var before := cache.Contents();
    cache.Commit(kind, w, rows, now, outputs, true);
    hit, entry := cache.Lookup(kind, w, look, true);
    OthersStay(before, kind, w, rows, now, look, outputs);
    EntryIs(w, outputs);
    match kind
    case Static =>
      StaticIsFound(before, w, rows, now, look, outputs);
    case Discovered =>
      DiscoveredIsFound(before, w, rows, now, look, outputs);
      RecordedRows(w, rows);
    case Uncacheable =>
  }

  /** An entry whose outputs could not be settled is forgotten: the same lookup misses next time. What is kept
      for other actions, and the observation sets, stay. */
  method FailThenLookup(cache: TwoLevel, kind: ActionKind, w: WeakKey, look: Oracle) returns (hit: bool, entry: Entry)
    modifies cache
    ensures !hit && cache.table == old(cache.table)
    ensures forall key: Key :: key.weak != w && key in old(cache.entries) ==>
      key in cache.entries && cache.entries[key] == old(cache.entries)[key]
  {
    hide AllResolve;
    hit, entry := cache.Lookup(kind, w, look, false);
    hit, entry := cache.Lookup(kind, w, look, true);
  }
}
