/** The digest cache and its time fence (source/core/dag/stamp.c, source/core/dag/run.c:31-188).
    Between any two atomic regions other threads and processes may do anything they are allowed to. */
module Fence {
  import opened Paths

  datatype Time = Time(sec: int, nsec: int)

  predicate Leq(a: Time, b: Time) {
    a.sec < b.sec || (a.sec == b.sec && a.nsec <= b.nsec)
  }

  /** `spn_dag_stamp_fenced`: strictly before the fence. */
  predicate Fenced(fence: Time, mtime: Time) {
    if mtime.sec != fence.sec then mtime.sec < fence.sec else mtime.nsec < fence.nsec
  }

  datatype FileState = FileState(mtime: Time, size: int, content: int)

  /** The file system: which inode a path names, and the files by inode. `content` stands for the bytes
      and their digest. */
  datatype World = World(clock: Time, names: map<Path, nat>, files: map<nat, FileState>)

  /** What `stat` tells. */
  datatype Stamp = Stamp(inode: nat, mtime: Time, size: int)

  /** `origin` is the inode the content was read from; the source does not keep it. */
  datatype Record = Record(stamp: Stamp, digest: int, origin: nat)

  predicate WellTimed(w: World) {
    forall i :: i in w.files ==> Leq(w.files[i].mtime, w.clock)
  }

  /** Any number of ticks, writes (which stamp the file with the clock), removals, renames and links. */
  predicate Evolves(w: World, w': World) {
    && Leq(w.clock, w'.clock)
    && forall i :: i in w'.files ==>
         || (i in w.files && w'.files[i] == w.files[i])
         || (Leq(w.clock, w'.files[i].mtime) && Leq(w'.files[i].mtime, w'.clock))
  }

  predicate Carries(w: World, stamp: Stamp) {
    stamp.inode in w.files && w.files[stamp.inode].mtime == stamp.mtime && w.files[stamp.inode].size == stamp.size
  }

  /** The record is out of reach of the clock, and right for any file that still carries its stamp. */
  predicate Sound(w: World, r: Record) {
    Fenced(w.clock, r.stamp.mtime) && (Carries(w, r.stamp) ==> w.files[r.stamp.inode].content == r.digest)
  }

  lemma EvolvesOn(a: World, b: World, c: World)
    requires Evolves(a, b) && Evolves(b, c)
    ensures Evolves(a, c)
  {
    forall i | i in c.files
      ensures (i in a.files && c.files[i] == a.files[i])
        || (Leq(a.clock, c.files[i].mtime) && Leq(c.files[i].mtime, c.clock))
    {
      if i in b.files && c.files[i] == b.files[i] {
        assert (i in a.files && b.files[i] == a.files[i])
          || (Leq(a.clock, b.files[i].mtime) && Leq(b.files[i].mtime, b.clock));
      }
    }
  }

  /** Once sound, always sound: any later write gives the file a stamp past the record's. */
  lemma SoundForEver(w: World, w': World, r: Record)
    requires Sound(w, r) && Evolves(w, w')
    ensures Sound(w', r)
  {
  }

  /** A stamp from before the fence and content read after it from the same inode make a sound record, no
      matter what happened between the stat and the read. */
  lemma HashBehindFence(w: World, stamp: Stamp, fence: Time)
    requires Fenced(fence, stamp.mtime) && Leq(fence, w.clock) && stamp.inode in w.files
    ensures Sound(w, Record(stamp, w.files[stamp.inode].content, stamp.inode))
  {
  }

  /** Without the strictness of the fence the record can be wrong: a second write within one tick. */
  lemma StrictnessMatters(stamp: Stamp, first: int, second: int) returns (w: World, w': World)
    ensures WellTimed(w) && WellTimed(w') && Evolves(w, w') && Leq(stamp.mtime, w.clock) && Leq(stamp.mtime, w'.clock)
    ensures Carries(w, stamp) && w.files[stamp.inode].content == first
    ensures Carries(w', stamp) && w'.files[stamp.inode].content == second
  {
    w := World(stamp.mtime, map[], map[stamp.inode := FileState(stamp.mtime, stamp.size, first)]);
    w' := World(stamp.mtime, map[], map[stamp.inode := FileState(stamp.mtime, stamp.size, second)]);
  }

  /** Behind the fence, content of inode `j` may be recorded under `stamp`, whatever the file system
      looks like by then. */
  ghost predicate MayRecord(fence: Time, stamp: Stamp, j: nat) {
    forall w :: WellTimed(w) && Leq(fence, w.clock) && j in w.files ==> Sound(w, Record(stamp, w.files[j].content, j))
  }

  /** A fenced record is safe exactly when the path named the same inode at the stat and at the read. */
  lemma SafeExactlyWhenSameInode(fence: Time, stamp: Stamp, j: nat)
    requires Fenced(fence, stamp.mtime)
    ensures MayRecord(fence, stamp, j) <==> stamp.inode == j
  {
    if stamp.inode == j {
      forall w | WellTimed(w) && Leq(fence, w.clock) && j in w.files
        ensures Sound(w, Record(stamp, w.files[j].content, j))
      {
        HashBehindFence(w, stamp, fence);
      }
    } else {
      var kept, other := FileState(stamp.mtime, stamp.size, 0), FileState(fence, stamp.size, 1);
      var w := World(fence, map[], map[stamp.inode := kept, j := other]);
      assert WellTimed(w) && !Sound(w, Record(stamp, w.files[j].content, j));
    }
  }

  /** Every record whose content came from the inode it is filed under is sound. */
  predicate AllSound<K>(w: World, records: map<K, Record>) {
    forall k :: k in records && records[k].origin == records[k].stamp.inode ==> Sound(w, records[k])
  }

  predicate MemoPast(w: World, memo: map<Path, Stamp>) {
    forall p :: p in memo ==> Leq(memo[p].mtime, w.clock)
  }

  predicate FiledByInode(entries: map<nat, Record>) {
    forall i :: i in entries ==> entries[i].stamp.inode == i
  }

  lemma KeepAll<K>(w: World, w': World, records: map<K, Record>)
    requires AllSound(w, records) && Evolves(w, w')
    ensures AllSound(w', records)
  {
    forall k | k in records && records[k].origin == records[k].stamp.inode ensures Sound(w', records[k]) {
      SoundForEver(w, w', records[k]);
    }
  }

  /** The inode a path names, if the file exists. */
  function NamedIn(w: World, path: Path): Option<nat> {
    if path in w.names && w.names[path] in w.files then Some(w.names[path]) else None
  }

  /** The record tells what reading the path in this world gives. */
  predicate ReadIn(w: World, path: Path, r: Record) {
    NamedIn(w, path) == Some(r.origin) && w.files[r.origin].content == r.digest
  }

  /** The stamp is that of the file the path names. */
  predicate StampedIn(w: World, path: Path, stamp: Stamp) {
    NamedIn(w, path) == Some(stamp.inode) && Carries(w, stamp)
  }

  predicate Before(a: Time, b: Time) {
    Leq(a, b) && a != b
  }

  /** Nothing but the probe file has been written. */
  ghost predicate OnlyProbed(w: World, w': World, fenceFile: nat) {
    && w'.clock == w.clock && w'.names == w.names
    && forall i :: i in w.files ==> i in w'.files && (i != fenceFile ==> w'.files[i] == w.files[i])
  }

  class FileCache {
    const fenceFile: nat        // the inode of the probe file
    const probing: bool         // whether the stamp has a directory to probe in
    const alone: bool           // whether nobody else is about
    var world: World
    var memo: map<Path, Stamp>
    var entries: map<nat, Record>
    var hints: map<Path, Record>
    var fence: Time

    /** Every digest that was read from the inode it is recorded for is the digest of the file's content
        for as long as the file carries the recorded stamp, now and in any future. */
    ghost predicate Valid()
      reads this
    {
      && WellTimed(world) && Leq(fence, world.clock) && MemoPast(world, memo)
      && AllSound(world, entries) && AllSound(world, hints) && FiledByInode(entries)
    }

    constructor (world: World, fence: Time, fenceFile: nat, probing: bool, alone: bool)
      requires WellTimed(world) && Leq(fence, world.clock)
      ensures Valid() && this.world == world && this.fence == fence
      ensures this.fenceFile == fenceFile && this.probing == probing && this.alone == alone
      ensures memo == map[] && entries == map[] && hints == map[]
    {
      this.world, this.fence, this.fenceFile, this.probing, this.alone := world, fence, fenceFile, probing, alone;
      memo, entries, hints := map[], map[], map[];
    }

    // -------------------------------------------------------------- what others do

    /** Other processes take the world to `next`. */
    method Act(next: World)
      requires Valid() && Evolves(world, next) && WellTimed(next)
      modifies this`world
      ensures Valid() && world == next
    {
      KeepAll(world, next, entries);
      KeepAll(world, next, hints);
      world := next;
    }

    /** Other processes act; the cache is locked or private. */
    method Pass()
      requires Valid()
      modifies this`world
      ensures Valid() && Evolves(old(world), world) && (alone ==> world == old(world))
    {
      var next: World := *;
      if !alone && Evolves(world, next) && WellTimed(next) {
        Act(next);
      }
    }

    /** Other processes and other threads act, and paths may be re-pointed; threads leave the cache valid
        and may drop, replace or add anything in it. */
    method Interfere()
      requires Valid()
      modifies this
      ensures Valid() && Evolves(old(world), world)
      ensures alone ==> world == old(world) && memo == old(memo) && entries == old(entries)
      ensures alone ==> hints == old(hints) && fence == old(fence)
    {
      Pass();
      if alone {
        return;
      }
      var someMemo: map<Path, Stamp>, someEntries: map<nat, Record>, someHints: map<Path, Record> := *, *, *;
      var someFence: Time := *;
      if MemoPast(world, someMemo) {
        memo := someMemo;
      }
      if AllSound(world, someEntries) && FiledByInode(someEntries) {
        entries := someEntries;
      }
      if AllSound(world, someHints) {
        hints := someHints;
      }
      if Leq(someFence, world.clock) {
        fence := someFence;
      }
    }

    // -------------------------------------------------------------- the atomic regions

    function Named(path: Path): Option<nat>
      reads this
    {
      NamedIn(world, path)
    }

    /** The system call of `spn_dag_file_cache_stat`. */
    method StatFile(path: Path) returns (ok: bool, stamp: Stamp)
      requires Valid()
      ensures ok <==> Named(path).Some?
      ensures ok ==> StampedIn(world, path, stamp) && Leq(stamp.mtime, world.clock)
    {
      ok, stamp := false, Stamp(0, Time(0, 0), 0);
      if Named(path).Some? {
        var inode := Named(path).value;
        ok, stamp := true, Stamp(inode, world.files[inode].mtime, world.files[inode].size);
      }
    }

    /** The locked half of the lookup: a record that still matches the stamp answers at once. */
    method Recall(path: Path, now: Stamp) returns (found: bool, record: Record)
      requires Valid()
      modifies this`entries
      ensures Valid()
      ensures found <==>
        || (now.inode in old(entries) && old(entries)[now.inode].stamp == now)
        || (path in hints && hints[path].stamp == now)
      ensures found ==> record.stamp == now
      ensures found ==> record == if now.inode in old(entries) && old(entries)[now.inode].stamp == now
                                  then old(entries)[now.inode] else hints[path]
      ensures entries == if found then old(entries)[now.inode := record] else old(entries)
    {
      if now.inode in entries && entries[now.inode].stamp == now {
        return true, entries[now.inode];
      }
      if path in hints && hints[path].stamp == now {
        entries := entries[now.inode := hints[path]];
        return true, hints[path];
      }
      return false, Record(now, 0, now.inode);
    }

    /** `spn_dag_stamp_probe`: writes the probe file and reads back its time. */
    method Probe() returns (ok: bool, probe: Time)
      requires Valid()
      modifies this`world
      ensures Valid() && Evolves(old(world), world)
      ensures ok ==> Leq(probe, world.clock) && Leq(old(world.clock), probe)
      ensures alone ==> ok && OnlyProbed(old(world), world, fenceFile)
    {
      ghost var before := world;
      var bytes: int := *;
      Act(world.(files := world.files[fenceFile := FileState(world.clock, 5, bytes)]));
      ghost var written := world;
      Pass();
      EvolvesOn(before, written, world);
      ok, probe := false, Time(0, 0);
      if fenceFile in world.files {
        ok, probe := true, world.files[fenceFile].mtime;
      }
    }

    /** `spn_dag_stamp_admit`: fenced already, or fenced by a now probe. */
    method Admit(mtime: Time) returns (ok: bool, admit: bool)
      requires Valid()
      modifies this`world, this`fence
      ensures Valid() && Evolves(old(world), world)
      ensures admit <==> ok && Before(mtime, fence)
      ensures Before(mtime, old(fence)) || !probing ==> ok && fence == old(fence) && world == old(world)
      ensures ok && probing && Before(mtime, old(world.clock)) ==> admit
      ensures alone ==> ok && OnlyProbed(old(world), world, fenceFile)
    {
      ok, admit := true, Fenced(fence, mtime);
      if admit || !probing {
        return;
      }
      var probe: Time;
      ok, probe := Probe();
      if !ok {
        return;
      }
      fence := probe;
      admit := Fenced(fence, mtime);
    }

    /** Reading and hashing the file the path names now. */
    method ReadFile(path: Path) returns (ok: bool, digest: int, inode: nat)
      requires Valid()
      ensures ok <==> Named(path).Some?
      ensures ok ==> inode == Named(path).value && digest == world.files[inode].content
    {
      ok, digest, inode := false, 0, 0;
      if Named(path).Some? {
        ok, digest, inode := true, world.files[Named(path).value].content, Named(path).value;
      }
    }

    /** `file_cache_record`. The record is right if the content came from the stamped inode; nothing here
        can tell. */
    method Store(path: Path, record: Record)
      requires Valid() && (record.origin == record.stamp.inode ==> Sound(world, record))
      modifies this`entries, this`hints
      ensures Valid() && entries == old(entries)[record.stamp.inode := record] && hints == old(hints)[path := record]
    {
      entries := entries[record.stamp.inode := record];
      hints := hints[path := record];
    }

    // -------------------------------------------------------------- the whole operation

    /** `spn_dag_file_cache_stat`: the remembered stamp, however old, or a now one. `at` is the world of the
        system call. */
    method Stat(path: Path) returns (ok: bool, stamp: Stamp, ghost at: World)
      requires Valid()
      modifies this
      ensures path in old(memo) ==> ok && stamp == old(memo)[path] && memo == old(memo) && world == old(world)
      ensures path !in old(memo) ==> (ok <==> NamedIn(at, path).Some?) && (ok ==> StampedIn(at, path, stamp))
      ensures ok ==> path in memo && memo[path] == stamp
      ensures Valid() && Evolves(old(world), at) && Evolves(at, world)
      ensures alone ==>
        world == old(world) == at && entries == old(entries) && hints == old(hints) && fence == old(fence)
    {
      at := world;
      if path in memo {
        return true, memo[path], world;
      }
      Interfere();
      ok, stamp := StatFile(path);
      at := world;
      if !ok {
        return;
      }
      Interfere();
      memo := memo[path := stamp];
    }

    /** The unlocked half of `spn_dag_file_cache_digest`: read the file, then record if admitted. Recorded or
        not, the answer is what the path named in the world `at` of the read. */
    method HashAndRecord(path: Path, now: Stamp, admit: bool) returns (ok: bool, record: Record, ghost at: World)
      requires Valid() && (admit ==> Before(now.mtime, fence))
      modifies this
      ensures Valid() && Evolves(old(world), at) && Evolves(at, world)
      ensures ok <==> NamedIn(at, path).Some?
      ensures record.stamp == now && (ok ==> ReadIn(at, path, record))
      ensures ok && admit ==> now.inode in entries && entries[now.inode] == record
      ensures ok && admit ==> path in hints && hints[path] == record
      ensures alone ==> world == old(world) == at
      ensures alone && !(ok && admit) ==> entries == old(entries) && hints == old(hints)
    {
      ghost var before, admitted := world, fence;
      Interfere();
      at := world;
      var digest, inode;
      ok, digest, inode := ReadFile(path);
      record := Record(now, digest, inode);
      EvolvesOn(before, at, world);
      if !ok || !admit {
        return;
      }
      if inode == now.inode {
        HashBehindFence(world, now, admitted);
      }
      Interfere();
      if inode == now.inode {
        SoundForEver(at, world, record);
      }
      Store(path, record);
    }

    /** A record is at hand that carries this stamp. */
    predicate Remembers(path: Path, now: Stamp)
      reads this
    {
      (now.inode in entries && entries[now.inode].stamp == now) || (path in hints && hints[path].stamp == now)
    }

    /** `spn_dag_file_cache_digest`. What is recorded, by this call or any other, is right for ever if the
        content came from the stamped inode (and `SafeExactlyWhenSameInode` says that nothing less will do).
        An answer that was not remembered is what the path named at some time of the call; `read` is the
        world of that time. */
    method Digest(path: Path) returns (ok: bool, recorded: bool, record: Record, ghost read: Option<World>)
      requires Valid()
      modifies this
      ensures Valid() && Evolves(old(world), world)
      ensures recorded ==> ok && record.stamp.inode in entries && entries[record.stamp.inode] == record
      ensures recorded && record.origin == record.stamp.inode ==> Sound(world, record)
      ensures ok && !recorded ==> read.Some?
      ensures read.Some? ==> Evolves(old(world), read.value) && Evolves(read.value, world)
      ensures ok && read.Some? ==> ReadIn(read.value, path, record)
      // with nobody else about
      ensures alone && NamedIn(old(world), path).Some? ==> ok && NamedIn(world, path) == NamedIn(old(world), path)
      ensures alone && ok && read.Some? ==> ReadIn(world, path, record)
      ensures
        alone && ok && read.None? && StampedIn(world, path, record.stamp) && record.origin == record.stamp.inode ==>
        ReadIn(world, path, record)
      ensures alone && ok && path !in old(memo) ==>
        && StampedIn(old(world), path, record.stamp) && (read.None? <==> old(Remembers(path, record.stamp)))
      ensures alone && ok && read.Some? && Before(record.stamp.mtime, old(fence)) ==> recorded
      ensures alone && ok && read.Some? && probing && Before(record.stamp.mtime, old(world.clock)) ==> recorded
    {
      ghost var before := world;
      recorded, record, read := false, Record(Stamp(0, Time(0, 0), 0), 0, 0), None;
      var stamp: Stamp;
      ghost var at;
      ok, stamp, at := Stat(path);
      EvolvesOn(before, at, world);
      if !ok {
        return;
      }
      ghost var stated := world;
      Interfere();
      EvolvesOn(before, stated, world);
      recorded, record := Recall(path, stamp);
      if recorded {
        return;
      }
      ghost var missed := world;
      var admit;
      ok, admit := Admit(stamp.mtime);
      EvolvesOn(before, missed, world);
      if !ok {
        return;
      }
      ghost var probed := world;
      ok, record, at := HashAndRecord(path, stamp, admit);
      EvolvesOn(before, probed, at);
      EvolvesOn(before, at, world);
      recorded, read := ok && admit, Some(at);
    }

    // -------------------------------------------------------------- the digest that goes wrong

    /** One digest of `p`, made of the regions above in their order, while somebody points `p` to another
        file between the stat and the read. The file that kept the stamp is still there as `q`: from then
        on a digest of `q` is answered with what was read for `p`. */
    method RepointedDigest(p: Path, q: Path) returns (answer: int)
      requires Valid() && p != q && entries == map[] && hints == map[] && fence == Time(8, 0)
      requires world == World(Time(9, 0), map[p := 1, q := 1],
                              map[1 := FileState(Time(5, 0), 4, 10), 2 := FileState(Time(6, 0), 4, 20)])
      modifies this
      ensures Valid() && Evolves(old(world), world)
      ensures Named(q) == Some(1) && world.files[1].content == 10 && answer == 20
    {
      var ok, stamp := StatFile(p);
      var found, record := Recall(p, stamp);
      var admit;
      ok, admit := Admit(stamp.mtime);
      Act(world.(names := world.names[p := 2]));
      var digest, inode;
      ok, digest, inode := ReadFile(p);
      Store(p, Record(stamp, digest, inode));
      ok, stamp := StatFile(q);
      found, record := Recall(q, stamp);
      answer := record.digest;
    }
  }
}
