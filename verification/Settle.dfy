/** Bringing a directory into line with a manifest (source/core/dag/run.c:275-413). */
module Settle {
  import opened Paths
  import opened Dag
  import opened Rings

  type Digest = nat

  /** A file, and the blob of the store it is a hard link of, if any. */
  datatype Node = FileNode(digest: Digest, blob: int) | DirNode

  /** Everything below the target directory, by relative name. */
  type Disk = map<string, Node>

  datatype Entry = Entry(name: string, digest: Digest)

  datatype TargetState = Settled | Stale | Poisoned

  /** `dir` is a proper directory prefix of `name`. */
  predicate IsParent(dir: string, name: string) {
    |dir| < |name| && name[..|dir|] == dir && name[|dir|] == '/'
  }

  lemma ParentsChain(a: string, b: string, c: string)
    requires IsParent(a, b) && IsParent(b, c)
    ensures IsParent(a, c)
  {
    assert c[..|a|] == b[..|a|];
  }

  /** `target_state`: directories have no digest. */
  function StateOf(disk: Disk, entry: Entry): TargetState {
    if entry.name !in disk || disk[entry.name].DirNode? then Stale
    else if disk[entry.name].digest == entry.digest then Settled
    else if disk[entry.name].blob == entry.digest then Poisoned
    else Stale
  }

  ghost predicate Named(entries: seq<Entry>, name: string) {
    exists i :: 0 <= i < |entries| && entries[i].name == name
  }

  ghost predicate Above(entries: seq<Entry>, dir: string) {
    exists i :: 0 <= i < |entries| && IsParent(dir, entries[i].name)
  }

  ghost predicate DistinctNames(entries: seq<Entry>) {
    forall i, j :: 0 <= i < j < |entries| ==> entries[i].name != entries[j].name
  }

  /** The files on the disk are exactly the manifest. */
  ghost predicate Matches(disk: Disk, entries: seq<Entry>) {
    forall name, digest ::
      (name in disk && disk[name].FileNode? && disk[name].digest == digest) <==> Entry(name, digest) in entries
  }

  /** A walk lists everything once, a directory before what it holds. */
  ghost predicate Walks(disk: Disk, walk: seq<string>) {
    && NoDup(walk) && (forall name :: name in walk <==> name in disk)
    && ParentsFirst(walk)
    && (forall i, j :: 0 <= i < |walk| && 0 <= j < |walk| && IsParent(walk[i], walk[j]) ==> disk[walk[i]].DirNode?)
  }

  /** What the walk keeps: the manifest's names as files, and the directories they need. */
  ghost predicate Kept(disk: Disk, entries: seq<Entry>, name: string)
    requires name in disk
  {
    if disk[name].DirNode? then Above(entries, name) else Named(entries, name)
  }

  // ---------------------------------------------------------------- the fast path

  function FilesIn(disk: Disk): set<string> {
    set name | name in disk && disk[name].FileNode?
  }

  function NamesOf(entries: seq<Entry>): (r: set<string>)
    ensures forall name :: name in r <==> Named(entries, name)
  {
    if entries == [] then {}
    else
      var rest := NamesOf(entries[..|entries| - 1]);
      assert forall name :: Named(entries, name) <==>
        Named(entries[..|entries| - 1], name) || entries[|entries| - 1].name == name by {
        assert entries == entries[..|entries| - 1] + [entries[|entries| - 1]];
      }
      rest + {entries[|entries| - 1].name}
  }

  lemma {:induction false} NamesCard(entries: seq<Entry>)
    ensures |NamesOf(entries)| <= |entries|
    ensures |NamesOf(entries)| == |entries| <==> DistinctNames(entries)
  {
    if entries != [] {
      var front, last := entries[..|entries| - 1], entries[|entries| - 1];
      NamesCard(front);
      assert entries == front + [last];
      DistinctSplit(front, last);
    }
  }

  lemma DistinctSplit(front: seq<Entry>, last: Entry)
    ensures DistinctNames(front + [last]) <==> DistinctNames(front) && !Named(front, last.name)
  {
    var all := front + [last];
    assert forall i | 0 <= i < |front| :: all[i] == front[i];
    if DistinctNames(all) {
      forall i, j | 0 <= i < j < |front| ensures front[i].name != front[j].name {
        assert all[i].name != all[j].name;
      }
      forall i | 0 <= i < |front| ensures front[i].name != last.name {
        assert all[i].name != all[|front|].name;
      }
    }
  }

  /** What the fast path looks at: every entry settled, and the number of files right. */
  ghost predicate LooksSettled(disk: Disk, entries: seq<Entry>) {
    (forall i :: 0 <= i < |entries| ==> InPlace(disk, entries[i])) && |FilesIn(disk)| == |entries|
  }

  /** The file under the entry's name has other content, although it is the very blob the store holds for
      the entry: somebody wrote through the link. */
  predicate WrittenThrough(disk: Disk, e: Entry) {
    && e.name in disk && disk[e.name].FileNode?
    && disk[e.name].digest != e.digest && disk[e.name].blob == e.digest
  }

  /** What the three states mean on the disk. */
  lemma StatesMean(disk: Disk, entry: Entry)
    ensures StateOf(disk, entry).Settled? <==> InPlace(disk, entry)
    ensures StateOf(disk, entry).Poisoned? <==> WrittenThrough(disk, entry)
  {
  }

  /** With distinct names, a settled manifest and a matching count leave no room for a stray file. */
  lemma CountingIsEnough(disk: Disk, entries: seq<Entry>)
    requires DistinctNames(entries) && LooksSettled(disk, entries)
    ensures Matches(disk, entries)
  {
    NamesCard(entries);
    assert NamesOf(entries) <= FilesIn(disk);
    Subsets(NamesOf(entries), FilesIn(disk));
    assert OnlyNamedFiles(disk, entries) by {
      forall name | name in disk && disk[name].FileNode? ensures Named(entries, name) {
        assert name in NamesOf(entries);
      }
    }
    PlacedIsMatch(disk, entries);
  }

  /** `k` stray files whose names are longer than `n`. */
  function Strays(n: nat, k: nat): (r: Disk)
    ensures |r| == k && forall name :: name in r ==> n < |name| <= n + k && r[name].FileNode?
  {
    if k == 0 then map[]
    else
      var name := seq(n + k, i => 'j');
      Strays(n, k - 1)[name := FileNode(0, -1)]
  }

  function Longest(entries: seq<Entry>): (n: nat)
    ensures forall i :: 0 <= i < |entries| ==> |entries[i].name| <= n
  {
    if entries == [] then 0
    else
      var n := Longest(entries[..|entries| - 1]);
      if |entries[|entries| - 1].name| > n then |entries[|entries| - 1].name| else n
  }

  /** Equal names carry equal digests, so some disk settles every entry. */
  ghost predicate Consistent(entries: seq<Entry>) {
    forall i, j :: 0 <= i < |entries| && 0 <= j < |entries| && entries[i].name == entries[j].name ==>
      entries[i] == entries[j]
  }

  function Laid(entries: seq<Entry>): (r: Disk)
    ensures r.Keys == NamesOf(entries)
    ensures forall name :: name in r ==> r[name].FileNode?
  {
    if entries == [] then map[]
    else
      var last := entries[|entries| - 1];
      Laid(entries[..|entries| - 1])[last.name := FileNode(last.digest, -1)]
  }

  lemma ConsistentFront(entries: seq<Entry>, k: nat)
    requires Consistent(entries) && k <= |entries|
    ensures Consistent(entries[..k])
  {
    var front := entries[..k];
    forall i, j | 0 <= i < k && 0 <= j < k && front[i].name == front[j].name ensures front[i] == front[j] {
      assert front[i] == entries[i] && front[j] == entries[j];
    }
  }

  lemma {:induction false} LaidSettles(entries: seq<Entry>, i: nat)
    requires Consistent(entries) && i < |entries|
    ensures entries[i].name in Laid(entries) && Laid(entries)[entries[i].name] == FileNode(entries[i].digest, -1)
  {
    var k := |entries| - 1;
    var front, entry, last := entries[..k], entries[i], entries[k];
    if entry.name == last.name {
      assert entry == last;
    } else {
      ConsistentFront(entries, k);
      LaidSettles(front, i);
      assert front[i] == entry;
    }
  }

  /** Laying out a manifest and adding stray files beside it. */
  lemma LaidWithStrays(laid: Disk, strays: Disk)
    requires laid.Keys !! strays.Keys && (forall name :: name in laid ==> laid[name].FileNode?)
    requires forall name :: name in strays ==> strays[name].FileNode?
    ensures FilesIn(laid + strays) == laid.Keys + strays.Keys && |FilesIn(laid + strays)| == |laid.Keys| + |strays.Keys|
  {
    assert FilesIn(laid + strays) == laid.Keys + strays.Keys;
  }

  /** Without distinct names the count can be made up by stray files. */
  lemma CountingIsNotEnough(entries: seq<Entry>) returns (disk: Disk)
    requires Consistent(entries) && !DistinctNames(entries)
    ensures LooksSettled(disk, entries) && !Matches(disk, entries)
  {
    hide DistinctNames, Consistent, Matches;
    NamesCard(entries);
    var laid, k := Laid(entries), |entries| - |NamesOf(entries)|;
    var strays := Strays(Longest(entries), k);
    disk := laid + strays;
    LaidApart(entries, laid, strays);
    LaidWithStrays(laid, strays);
    assert |strays.Keys| == |strays|;
    StrayIsUnlisted(entries, disk, strays);
  }

  lemma LongNames(entries: seq<Entry>, name: string)
    requires |name| > Longest(entries)
    ensures !Named(entries, name)
  {
    assert forall i :: 0 <= i < |entries| ==> |entries[i].name| <= Longest(entries);
  }

  lemma LaidApart(entries: seq<Entry>, laid: Disk, strays: Disk)
    requires Consistent(entries) && laid == Laid(entries) && forall name :: name in strays ==> |name| > Longest(entries)
    ensures laid.Keys !! strays.Keys && (forall name :: name in strays ==> !Named(entries, name))
    ensures forall i :: 0 <= i < |entries| ==> InPlace(laid + strays, entries[i])
  {
    forall name | name in strays ensures !Named(entries, name) {
      LongNames(entries, name);
    }
    forall i | 0 <= i < |entries| ensures InPlace(laid + strays, entries[i]) {
      assert Named(entries, entries[i].name);
      LaidSettlesBeside(entries, strays, i);
    }
  }

  lemma LaidSettlesBeside(entries: seq<Entry>, strays: Disk, i: nat)
    requires Consistent(entries) && i < |entries| && entries[i].name !in strays
    ensures InPlace(Laid(entries) + strays, entries[i])
  {
    LaidSettles(entries, i);
  }

  lemma StrayIsUnlisted(entries: seq<Entry>, disk: Disk, strays: Disk)
    requires |strays| > 0
    requires forall name :: name in strays ==> name in disk && disk[name].FileNode? && !Named(entries, name)
    ensures !Matches(disk, entries)
  {
    assert strays.Keys != {} by {
      assert |strays.Keys| == |strays|;
    }
    var name :| name in strays;
    assert Entry(name, disk[name].digest) !in entries;
  }

  /** The count is trustworthy exactly for manifests whose names are distinct. */
  lemma CountIsTrustworthy(entries: seq<Entry>)
    requires Consistent(entries)
    ensures (forall disk :: LooksSettled(disk, entries) ==> Matches(disk, entries)) <==> DistinctNames(entries)
  {
    if DistinctNames(entries) {
      forall disk | LooksSettled(disk, entries) ensures Matches(disk, entries) {
        CountingIsEnough(disk, entries);
      }
    } else {
      var disk := CountingIsNotEnough(entries);
    }
  }

  // ---------------------------------------------------------------- the slow path

  /** Nothing is left in `dir`. */
  predicate Empty(disk: Disk, dir: string) {
    forall name :: name in disk ==> !IsParent(dir, name)
  }

  /** Removing one name, for a directory only once it is empty. The file system may hold on to it. */
  function Removed(disk: Disk, name: string, allowed: string -> bool): Option<Disk> {
    if !allowed(name) || !Empty(disk, name) then None else Some(disk - {name})
  }

  function ParentsOf(name: string): set<string> {
    set k | 0 <= k < |name| && name[k] == '/' :: name[..k]
  }

  /** Linking one file: its directories are created, and nothing of another kind may be in the way. */
  function Linked(disk: Disk, entry: Entry): Option<Disk> {
    if entry.name in disk && disk[entry.name].DirNode? then None
    else if exists dir :: dir in ParentsOf(entry.name) && dir in disk && disk[dir].FileNode? then None
    else
      var dirs := map dir | dir in ParentsOf(entry.name) && dir !in disk :: DirNode;
      Some((disk + dirs)[entry.name := FileNode(entry.digest, entry.digest)])
  }

  /** Entry `e` is in place. */
  predicate InPlace(disk: Disk, e: Entry) {
    e.name in disk && disk[e.name].FileNode? && disk[e.name].digest == e.digest
  }

  ghost predicate OnlyNamedFiles(disk: Disk, entries: seq<Entry>) {
    forall name :: name in disk && disk[name].FileNode? ==> Named(entries, name)
  }

  /** Linking puts one entry in place and disturbs no other file. */
  lemma LinkKeeps(disk: Disk, entry: Entry, entries: seq<Entry>)
    requires Linked(disk, entry).Some? && Named(entries, entry.name) && OnlyNamedFiles(disk, entries)
    ensures var out := Linked(disk, entry).value;
      && InPlace(out, entry) && OnlyNamedFiles(out, entries)
      && out[entry.name] == FileNode(entry.digest, entry.digest)
      && (forall name :: name in disk && name != entry.name ==> name in out && out[name] == disk[name])
      && forall e: Entry :: (e.name != entry.name || e == entry) && InPlace(disk, e) ==> InPlace(out, e)
  {
    var dirs := map dir | dir in ParentsOf(entry.name) && dir !in disk :: DirNode;
    assert entry.name !in ParentsOf(entry.name);
  }

  lemma PlacedIsListed(disk: Disk, entries: seq<Entry>, name: string)
    requires OnlyNamedFiles(disk, entries) && name in disk && disk[name].FileNode?
    requires forall i :: 0 <= i < |entries| ==> InPlace(disk, entries[i])
    ensures Entry(name, disk[name].digest) in entries
  {
    assert Named(entries, name);
    var i :| 0 <= i < |entries| && entries[i].name == name;
    assert InPlace(disk, entries[i]);
    assert entries[i] == Entry(name, disk[name].digest);
  }

  /** Files all named, entries all in place: the manifest. */
  lemma PlacedIsMatch(disk: Disk, entries: seq<Entry>)
    requires OnlyNamedFiles(disk, entries)
    requires forall i :: 0 <= i < |entries| ==> InPlace(disk, entries[i])
    ensures Matches(disk, entries)
  {
    forall name, digest
      ensures (name in disk && disk[name].FileNode? && disk[name].digest == digest) <==> Entry(name, digest) in entries
    {
      if name in disk && disk[name].FileNode? {
        PlacedIsListed(disk, entries, name);
      }
      if Entry(name, digest) in entries {
        var i :| 0 <= i < |entries| && entries[i] == Entry(name, digest);
        assert InPlace(disk, entries[i]);
      }
    }
  }

  method KeepDirs(name: string, keepDirs: set<string>) returns (r: set<string>)
    ensures forall dir :: dir in r <==> dir in keepDirs || IsParent(dir, name)
  {
    r := keepDirs;
    var parent := name;
    var sep := LastSep(parent);
    while sep >= 0
      invariant parent == name[..|parent|] && sep == LastSep(parent)
      invariant forall dir :: dir in r <==> dir in keepDirs || (IsParent(dir, name) && |dir| >= |parent|)
      decreases |parent|
    {
      ghost var before := parent;
      parent := parent[..sep];
      assert IsParent(parent, name);
      forall dir | IsParent(dir, name) && sep <= |dir| < |before| ensures dir == parent {
        assert before[|dir|] == '/';
      }
      r := r + {parent};
      sep := LastSep(parent);
    }
    assert forall dir | IsParent(dir, name) && |dir| < |parent| :: parent[|dir|] == '/';
  }

  /** `keep_files` and `keep_dirs`. */
  method KeepSets(entries: seq<Entry>) returns (keepFiles: set<string>, keepDirs: set<string>)
    ensures forall name :: name in keepFiles <==> Named(entries, name)
    ensures forall dir :: dir in keepDirs <==> Above(entries, dir)
  {
    keepFiles, keepDirs := {}, {};
    for it := 0 to |entries|
      invariant forall name :: name in keepFiles <==> Named(entries[..it], name)
      invariant forall dir :: dir in keepDirs <==> Above(entries[..it], dir)
    {
      ghost var before := entries[..it];
      assert entries[..it + 1] == before + [entries[it]];
      forall name ensures Named(entries[..it + 1], name) <==> Named(before, name) || name == entries[it].name {
        NamedSplit(before, entries[it], name);
      }
      keepFiles := keepFiles + {entries[it].name};
      keepDirs := KeepDirs(entries[it].name, keepDirs);
    }
    assert entries[..|entries|] == entries;
  }

  lemma NamedSplit(front: seq<Entry>, last: Entry, name: string)
    ensures Named(front + [last], name) <==> Named(front, name) || name == last.name
    ensures Above(front + [last], name) <==> Above(front, name) || IsParent(name, last.name)
  {
    var all := front + [last];
    assert all[|front|] == last;
    assert forall i :: 0 <= i < |front| ==> all[i] == front[i];
  }

  predicate Keeps(disk: Disk, keepFiles: set<string>, keepDirs: set<string>, name: string) {
    name in disk && if disk[name].DirNode? then name in keepDirs else name in keepFiles
  }

  function Extras(disk: Disk, walk: seq<string>, keepFiles: set<string>, keepDirs: set<string>): seq<string> {
    if walk == [] then []
    else
      var rest := Extras(disk, walk[..|walk| - 1], keepFiles, keepDirs);
      if Keeps(disk, keepFiles, keepDirs, walk[|walk| - 1]) then rest else rest + [walk[|walk| - 1]]
  }

  function FileCount(disk: Disk, walk: seq<string>): nat
    requires forall i :: 0 <= i < |walk| ==> walk[i] in disk
  {
    if walk == [] then 0 else FileCount(disk, walk[..|walk| - 1]) + if disk[walk[|walk| - 1]].DirNode? then 0 else 1
  }

  function FilesAmong(disk: Disk, walk: seq<string>): set<string> {
    set name | name in walk && name in disk && disk[name].FileNode?
  }

  lemma FilesAmongGrow(disk: Disk, front: seq<string>, last: string)
    requires last in disk
    ensures FilesAmong(disk, front + [last]) == if disk[last].FileNode? then FilesAmong(disk, front) + {last}
      else FilesAmong(disk, front)
  {
  }

  lemma {:induction false} FileCountIsCard(disk: Disk, walk: seq<string>)
    requires NoDup(walk) && forall i :: 0 <= i < |walk| ==> walk[i] in disk
    ensures FileCount(disk, walk) == |FilesAmong(disk, walk)|
  {
    if walk == [] {
      assert FilesAmong(disk, walk) == {};
    } else {
      var front, last := walk[..|walk| - 1], walk[|walk| - 1];
      FileCountIsCard(disk, front);
      assert walk == front + [last];
      FilesAmongGrow(disk, front, last);
      assert last !in front;
    }
  }

  lemma {:induction false} ExtrasMeaning(disk: Disk, walk: seq<string>, keepFiles: set<string>, keepDirs: set<string>)
    requires NoDup(walk)
    ensures var extra := Extras(disk, walk, keepFiles, keepDirs);
      && NoDup(extra) && (forall name :: name in extra <==> name in walk && !Keeps(disk, keepFiles, keepDirs, name))
  {
    if walk != [] {
      var front, last := walk[..|walk| - 1], walk[|walk| - 1];
      ExtrasMeaning(disk, front, keepFiles, keepDirs);
      assert walk == front + [last] && last !in front;
    }
  }

  ghost predicate ParentsFirst(names: seq<string>) {
    forall i, j :: 0 <= i < |names| && 0 <= j < |names| && IsParent(names[i], names[j]) ==> i < j
  }

  lemma {:induction false} ExtrasOrder(disk: Disk, walk: seq<string>, keepFiles: set<string>, keepDirs: set<string>)
    requires NoDup(walk) && ParentsFirst(walk)
    ensures ParentsFirst(Extras(disk, walk, keepFiles, keepDirs))
  {
    if walk != [] {
      var front, last := walk[..|walk| - 1], walk[|walk| - 1];
      assert forall i :: 0 <= i < |front| ==> front[i] == walk[i];
      ExtrasOrder(disk, front, keepFiles, keepDirs);
      ExtrasMeaning(disk, front, keepFiles, keepDirs);
      var extra := Extras(disk, front, keepFiles, keepDirs);
      forall i | 0 <= i < |extra| ensures !IsParent(last, extra[i]) {
        assert extra[i] in front;
        var k :| 0 <= k < |front| && front[k] == extra[i];
        assert !IsParent(walk[|walk| - 1], walk[k]);
      }
    }
  }

  /** The walk: everything the manifest does not keep, and how many files there are. */
  method Survey(disk: Disk, walk: seq<string>, keepFiles: set<string>, keepDirs: set<string>)
    returns (extra: seq<string>, files: nat)
    requires Walks(disk, walk)
    ensures extra == Extras(disk, walk, keepFiles, keepDirs) && files == |FilesIn(disk)|
  {
    forall i | 0 <= i < |walk| ensures walk[i] in disk {
      assert walk[i] in walk;
    }
    extra, files := [], 0;
    for it := 0 to |walk|
      invariant extra == Extras(disk, walk[..it], keepFiles, keepDirs)
      invariant files == FileCount(disk, walk[..it])
    {
      var name := walk[it];
      assert walk[..it + 1][..it] == walk[..it];
      if !disk[name].DirNode? {
        files := files + 1;
      }
      if if disk[name].DirNode? then name in keepDirs else name in keepFiles {
        continue;
      }
      extra := extra + [name];
    }
    assert walk[..|walk|] == walk;
    FileCountIsCard(disk, walk);
    assert FilesIn(disk) == FilesAmong(disk, walk);
  }

  /** The state of every entry. */
  method Inspect(disk: Disk, entries: seq<Entry>) returns (stale: seq<nat>, poisoned: seq<nat>)
    ensures forall i: nat :: i in poisoned <==> i < |entries| && WrittenThrough(disk, entries[i])
    ensures forall i: nat :: i in stale <==>
      i < |entries| && !InPlace(disk, entries[i]) && !WrittenThrough(disk, entries[i])
  {
    stale, poisoned := [], [];
    for it := 0 to |entries|
      invariant forall i: nat :: i in poisoned <==> i < it && WrittenThrough(disk, entries[i])
      invariant forall i: nat :: i in stale <==>
        i < it && !InPlace(disk, entries[i]) && !WrittenThrough(disk, entries[i])
    {
      StatesMean(disk, entries[it]);
      match StateOf(disk, entries[it])
      case Settled =>
      case Stale => stale := stale + [it];
      case Poisoned => poisoned := poisoned + [it];
    }
  }

  lemma RemovedEarlier(extra: seq<string>, it: nat, name: string)
    requires it < |extra| && name in extra && IsParent(extra[it], name)
    requires ParentsFirst(extra)
    ensures name in extra[it + 1..]
  {
    var j :| 0 <= j < |extra| && extra[j] == name;
    assert extra[it + 1..][j - it - 1] == name;
  }

  /** Removing the extras, last found first: a directory is empty by the time its turn comes, so nothing but
      the file system itself can stop it. `allowed` says which names it lets go or lets be linked. */
  method RemoveExtras(disk: Disk, extra: seq<string>, allowed: string -> bool) returns (ok: bool, out: Disk)
    requires NoDup(extra) && (forall i :: 0 <= i < |extra| ==> extra[i] in disk)
    requires ParentsFirst(extra)
    requires forall i, name :: 0 <= i < |extra| && name in disk && IsParent(extra[i], name) ==> name in extra
    ensures ok <==> forall name :: name in extra ==> allowed(name)
    ensures ok ==> out == disk - set name | name in extra
  {
    ok, out := true, disk;
    var it := |extra|;
    while it > 0
      invariant 0 <= it <= |extra|
      invariant out == disk - set name | name in extra[it..]
      invariant forall name :: name in extra[it..] ==> allowed(name)
    {
      it := it - 1;
      forall name | name in disk && IsParent(extra[it], name) ensures name in extra[it + 1..] {
        RemovedEarlier(extra, it, name);
      }
      var removed := Removed(out, extra[it], allowed);
      if removed.None? {
        assert extra[it] in extra;
        return false, out;
      }
      assert extra[it..] == [extra[it]] + extra[it + 1..];
      out := removed.value;
    }
    assert extra[0..] == extra;
  }

  /** No file of the manifest is a directory of another. */
  ghost predicate Flat(entries: seq<Entry>) {
    forall i, j :: 0 <= i < |entries| && 0 <= j < |entries| ==> !IsParent(entries[i].name, entries[j].name)
  }

  ghost predicate OnlyNeededDirs(disk: Disk, entries: seq<Entry>) {
    forall name :: name in disk && disk[name].DirNode? ==> Above(entries, name)
  }

  /** Among named files and needed directories nothing is in the way of an entry. */
  lemma NothingInTheWay(disk: Disk, entries: seq<Entry>, i: nat)
    requires Flat(entries) && OnlyNamedFiles(disk, entries) && OnlyNeededDirs(disk, entries) && i < |entries|
    ensures Linked(disk, entries[i]).Some? && OnlyNeededDirs(Linked(disk, entries[i]).value, entries)
  {
    var entry := entries[i];
    forall dir | dir in ParentsOf(entry.name) ensures Above(entries, dir) && !Named(entries, dir) {
      var k :| 0 <= k < |entry.name| && entry.name[k] == '/' && dir == entry.name[..k];
      assert IsParent(dir, entries[i].name);
    }
    assert !Above(entries, entry.name);
  }

  predicate Linkable(entry: Entry, store: set<Digest>, allowed: string -> bool) {
    entry.digest in store && allowed(entry.name)
  }

  /** Equal entries are stale together. */
  ghost predicate StaleTogether(entries: seq<Entry>, stale: seq<nat>) {
    forall i: nat, j: nat :: i < |entries| && j < |entries| && entries[i] == entries[j] && i in stale ==> j in stale
  }

  /** The directories above an entry are there. */
  ghost predicate Housed(disk: Disk, e: Entry) {
    forall dir :: IsParent(dir, e.name) ==> dir in disk && disk[dir].DirNode?
  }

  /** Linking makes the directories an entry needs, and takes none away. */
  lemma LinkHouses(disk: Disk, entry: Entry)
    requires Linked(disk, entry).Some?
    ensures Housed(Linked(disk, entry).value, entry)
    ensures forall e: Entry :: Housed(disk, e) ==> Housed(Linked(disk, entry).value, e)
  {
    var out := Linked(disk, entry).value;
    forall dir | IsParent(dir, entry.name) ensures dir in out && out[dir].DirNode? {
      assert entry.name[..|dir|] == dir && dir in ParentsOf(entry.name);
    }
    assert forall name | name in disk && disk[name].DirNode? :: name in out && out[name].DirNode?;
  }

  /** The first `it` stale entries are links of their blobs, and the entries that are not stale as they were. */
  ghost predicate LinkedUpTo(disk: Disk, out: Disk, entries: seq<Entry>, stale: seq<nat>, it: nat)
    requires it <= |stale| && forall i :: 0 <= i < |stale| ==> stale[i] < |entries|
  {
    && (forall i: nat :: i < |entries| && i !in stale ==>
          entries[i].name in disk && entries[i].name in out && out[entries[i].name] == disk[entries[i].name])
    && (forall k :: 0 <= k < it ==>
          var e := entries[stale[k]]; Housed(out, e) && e.name in out && out[e.name] == FileNode(e.digest, e.digest))
  }

  lemma NamesTell(entries: seq<Entry>, i: nat, j: nat)
    requires Consistent(entries) && i < |entries| && j < |entries|
    ensures entries[i].name == entries[j].name ==> entries[i] == entries[j]
  {
  }

  lemma OtherEntry(entries: seq<Entry>, stale: seq<nat>, j: nat, i: nat)
    requires StaleTogether(entries, stale) && i < |entries| && j < |entries| && j in stale && i !in stale
    ensures entries[i] != entries[j]
  {
  }

  lemma LinkedNext(disk: Disk, out: Disk, next: Disk, entries: seq<Entry>, stale: seq<nat>, it: nat)
    requires it < |stale| && (forall i :: 0 <= i < |stale| ==> stale[i] < |entries|)
    requires LinkedUpTo(disk, out, entries, stale, it) && Consistent(entries) && StaleTogether(entries, stale)
    requires Linked(out, entries[stale[it]]) == Some(next)
    ensures LinkedUpTo(disk, next, entries, stale, it + 1)
  {
    hide Housed;
    var entry := entries[stale[it]];
    LinkHouses(out, entry);
    var dirs := map dir | dir in ParentsOf(entry.name) && dir !in out :: DirNode;
    assert forall name | name in out && name != entry.name :: name in next && next[name] == out[name];
    forall i: nat | i < |entries| && i !in stale ensures entries[i].name != entry.name {
      assert stale[it] in stale;
      NamesTell(entries, i, stale[it]);
      OtherEntry(entries, stale, stale[it], i);
    }
    forall k | 0 <= k < it
      ensures var e := entries[stale[k]];
        Housed(next, e) && e.name in next && next[e.name] == FileNode(e.digest, e.digest)
    {
      assert entries[stale[k]].name == entry.name ==> entries[stale[k]] == entry;
    }
  }

  lemma DirsStayNeeded(disk: Disk, entries: seq<Entry>, i: nat)
    requires OnlyNeededDirs(disk, entries) && i < |entries| && Linked(disk, entries[i]).Some?
    ensures OnlyNeededDirs(Linked(disk, entries[i]).value, entries)
  {
    forall dir | dir in ParentsOf(entries[i].name) ensures Above(entries, dir) {
      var k :| 0 <= k < |entries[i].name| && entries[i].name[k] == '/' && dir == entries[i].name[..k];
      assert IsParent(dir, entries[i].name);
    }
  }

  /** Linking the stale entries from the store. */
  method LinkStale(disk: Disk, entries: seq<Entry>, stale: seq<nat>, store: set<Digest>, allowed: string -> bool)
    returns (ok: bool, out: Disk)
    requires OnlyNamedFiles(disk, entries) && OnlyNeededDirs(disk, entries) && StaleTogether(entries, stale)
    requires forall i :: 0 <= i < |stale| ==> stale[i] < |entries|
    requires forall i :: 0 <= i < |entries| && i !in stale ==> InPlace(disk, entries[i])
    ensures ok ==> OnlyNamedFiles(out, entries) && OnlyNeededDirs(out, entries)
    ensures ok && Consistent(entries) ==> forall i :: 0 <= i < |entries| ==> InPlace(out, entries[i])
    ensures ok && Consistent(entries) ==> LinkedUpTo(disk, out, entries, stale, |stale|)
    ensures ok ==> forall i :: i in stale ==> Linkable(entries[i], store, allowed)
    ensures Flat(entries) ==> (forall i :: i in stale ==> Linkable(entries[i], store, allowed)) ==> ok
  {
    hide *;
    BeforeLinking(disk, entries, stale);
    ok, out := true, disk;
    for it := 0 to |stale|
      invariant OnlyNamedFiles(out, entries) && OnlyNeededDirs(out, entries)
      invariant Consistent(entries) ==> LinkedUpTo(disk, out, entries, stale, it)
      invariant PlacedBut(out, entries, stale, it)
      invariant forall k :: 0 <= k < it ==> Linkable(entries[stale[k]], store, allowed)
    {
      if Flat(entries) {
        NothingInTheWay(out, entries, stale[it]);
      }
      if !Linkable(entries[stale[it]], store, allowed) || Linked(out, entries[stale[it]]).None? {
        return false, out;
      }
      LinkOne(disk, out, entries, stale, it);
      out := Linked(out, entries[stale[it]]).value;
    }
    AfterLinking(out, entries, stale);
  }

  lemma BeforeLinking(disk: Disk, entries: seq<Entry>, stale: seq<nat>)
    requires forall i :: 0 <= i < |stale| ==> stale[i] < |entries|
    requires forall i :: 0 <= i < |entries| && i !in stale ==> InPlace(disk, entries[i])
    ensures PlacedBut(disk, entries, stale, 0) && LinkedUpTo(disk, disk, entries, stale, 0)
  {
    assert stale[0..] == stale;
  }

  lemma AfterLinking(out: Disk, entries: seq<Entry>, stale: seq<nat>)
    requires PlacedBut(out, entries, stale, |stale|)
    ensures Consistent(entries) ==> forall i :: 0 <= i < |entries| ==> InPlace(out, entries[i])
  {
  }

  /** What is not among the stale entries still to come is in place, if equal names mean equal entries. */
  ghost predicate PlacedBut(disk: Disk, entries: seq<Entry>, stale: seq<nat>, it: nat)
    requires it <= |stale|
  {
    Consistent(entries) ==> forall i :: 0 <= i < |entries| && i !in stale[it..] ==> InPlace(disk, entries[i])
  }

  lemma LinkOne(disk: Disk, out: Disk, entries: seq<Entry>, stale: seq<nat>, it: nat)
    requires it < |stale| && (forall i :: 0 <= i < |stale| ==> stale[i] < |entries|)
    requires OnlyNamedFiles(out, entries) && OnlyNeededDirs(out, entries) && PlacedBut(out, entries, stale, it)
    requires Consistent(entries) ==> LinkedUpTo(disk, out, entries, stale, it)
    requires StaleTogether(entries, stale) && Linked(out, entries[stale[it]]).Some?
    ensures var next := Linked(out, entries[stale[it]]).value;
      && OnlyNamedFiles(next, entries) && OnlyNeededDirs(next, entries) && PlacedBut(next, entries, stale, it + 1)
      && (Consistent(entries) ==> LinkedUpTo(disk, next, entries, stale, it + 1))
  {
    hide OnlyNamedFiles, OnlyNeededDirs, LinkedUpTo, Consistent, StaleTogether, PlacedBut, Linked;
    NamedByIndex(entries, stale[it]);
    LinkKeeps(out, entries[stale[it]], entries);
    DirsStayNeeded(out, entries, stale[it]);
    PlacedNext(entries, out, Linked(out, entries[stale[it]]).value, stale, it);
    if Consistent(entries) {
      LinkedNext(disk, out, Linked(out, entries[stale[it]]).value, entries, stale, it);
    }
  }

  lemma NamedByIndex(entries: seq<Entry>, i: nat)
    requires i < |entries|
    ensures Named(entries, entries[i].name)
  {
  }

  lemma PlacedNext(entries: seq<Entry>, out: Disk, next: Disk, stale: seq<nat>, it: nat)
    requires it < |stale| && stale[it] < |entries| && Linked(out, entries[stale[it]]) == Some(next)
    requires OnlyNamedFiles(out, entries) && PlacedBut(out, entries, stale, it)
    ensures PlacedBut(next, entries, stale, it + 1)
  {
    assert stale[it..] == [stale[it]] + stale[it + 1..];
    assert Named(entries, entries[stale[it]].name);
    LinkKeeps(out, entries[stale[it]], entries);
  }

  lemma RelinkedAll(disk: Disk, mid: Disk, out: Disk, entries: seq<Entry>, stale: seq<nat>)
    requires forall i: nat :: i in stale <==> i < |entries| && !InPlace(disk, entries[i])
    requires forall i :: 0 <= i < |stale| ==> stale[i] < |entries|
    requires forall i :: 0 <= i < |entries| && i !in stale ==>
      entries[i].name in disk && entries[i].name in mid && mid[entries[i].name] == disk[entries[i].name]
    requires LinkedUpTo(mid, out, entries, stale, |stale|)
    ensures Relinked(disk, out, entries)
  {
    forall i | 0 <= i < |entries| && !InPlace(disk, entries[i])
      ensures entries[i].name in out && out[entries[i].name] == FileNode(entries[i].digest, entries[i].digest)
      ensures Housed(out, entries[i])
    {
      var k :| 0 <= k < |stale| && stale[k] == i;
    }
  }

  /** What settling needs: when the directory is missing, that it can be made and every entry linked;
      otherwise that no file was written through its link, every extra can be removed and every entry that
      is not in place linked. */
  ghost predicate CanSettle(disk: Disk, present: bool, entries: seq<Entry>, store: set<Digest>,
                            allowed: string -> bool, creatable: bool) {
    if !present then creatable && forall i :: 0 <= i < |entries| ==> Linkable(entries[i], store, allowed)
    else
      && (forall i :: 0 <= i < |entries| ==> !WrittenThrough(disk, entries[i]))
      && (forall name :: name in disk && !Kept(disk, entries, name) ==> allowed(name))
      && (forall i :: 0 <= i < |entries| && !InPlace(disk, entries[i]) ==> Linkable(entries[i], store, allowed))
  }

  /** Every entry is the file it was if it was in place; if it was not, it is a link of its blob, and the
      directories above it are there. */
  ghost predicate Relinked(disk: Disk, out: Disk, entries: seq<Entry>) {
    forall i :: 0 <= i < |entries| ==>
      var name := entries[i].name;
      && name in out && (InPlace(disk, entries[i]) ==> out[name] == disk[name])
      && (!InPlace(disk, entries[i]) ==>
            Housed(out, entries[i]) && out[name] == FileNode(entries[i].digest, entries[i].digest))
  }

  ghost predicate AllHandy(entries: seq<Entry>, store: set<Digest>, allowed: string -> bool) {
    (forall name :: allowed(name)) && forall i :: 0 <= i < |entries| ==> entries[i].digest in store
  }

  /** `settle_tree`. `walk` is the order in which the file system lists the directory, `store` the blobs
      at hand; `allowed` and `creatable` say what the file system lets happen. For a manifest with distinct
      names success means that the files are exactly the manifest's; with repeated names it means so
      exactly when something was written and equal names carry equal digests. */
  method SettleTree(disk: Disk, present: bool, walk: seq<string>, entries: seq<Entry>, store: set<Digest>,
                    allowed: string -> bool, creatable: bool)
    returns (ok: bool, out: Disk, wrote: bool)
    requires if present then Walks(disk, walk) else disk == map[]
    ensures ok ==> (Matches(out, entries) <==> if wrote then Consistent(entries) else DistinctNames(entries))
    ensures !wrote ==> out == disk
    ensures ok && wrote ==> OnlyNeededDirs(out, entries) && (Consistent(entries) ==> Relinked(disk, out, entries))
    ensures present && (exists i :: 0 <= i < |entries| && WrittenThrough(disk, entries[i])) ==> !ok
    ensures Flat(entries) && AllHandy(entries, store, allowed) && creatable ==>
      (forall i :: 0 <= i < |entries| ==> !WrittenThrough(disk, entries[i])) ==> ok
    ensures wrote <==> if present then !LooksSettled(disk, entries) else creatable
    ensures ok ==>
      (present && LooksSettled(disk, entries)) || CanSettle(disk, present, entries, store, allowed, creatable)
    ensures present && LooksSettled(disk, entries) ==> ok
    ensures Flat(entries) && CanSettle(disk, present, entries, store, allowed, creatable) ==> ok
  {
    ok, out, wrote := false, disk, false;
    if !present {
      if creatable {
        wrote := true;
        ok, out := SettleNew(disk, entries, store, allowed);
      }
      return;
    }
    var keepFiles, keepDirs := KeepSets(entries);
    var extra, files := Survey(disk, walk, keepFiles, keepDirs);
    ExtrasMeaning(disk, walk, keepFiles, keepDirs);
    ExtrasOrder(disk, walk, keepFiles, keepDirs);
    ExtrasAreClosed(disk, entries, walk, extra);
    var stale, poisoned := Inspect(disk, entries);
    FastPath(disk, entries, stale, poisoned, files);
    if stale == [] && poisoned == [] && files == |entries| {
      FastMatches(disk, entries);
      return true, disk, false;
    }
    wrote := true;
    if poisoned != [] {
      assert poisoned[0] in poisoned;
      return;
    }
    ok, out := SettleRest(disk, entries, extra, stale, store, allowed);
  }

  /** A directory that did not exist: every entry is stale. */
  method SettleNew(disk: Disk, entries: seq<Entry>, store: set<Digest>, allowed: string -> bool)
    returns (ok: bool, out: Disk)
    requires disk == map[]
    ensures ok ==> (Matches(out, entries) <==> Consistent(entries))
    ensures ok ==> OnlyNeededDirs(out, entries) && (Consistent(entries) ==> Relinked(disk, out, entries))
    ensures ok ==> forall i :: 0 <= i < |entries| ==> Linkable(entries[i], store, allowed)
    ensures Flat(entries) && (forall i :: 0 <= i < |entries| ==> Linkable(entries[i], store, allowed)) ==> ok
  {
    var stale: seq<nat> := seq(|entries|, i => i);
    forall i: nat | i < |entries| ensures i in stale {
      assert stale[i] == i;
    }
    ok, out := LinkStale(disk, entries, stale, store, allowed);
    if ok {
      PlacedMatches(out, entries);
      if Consistent(entries) {
        RelinkedAll(disk, disk, out, entries, stale);
      }
    }
  }

  /** Removing what is too much, then linking what is missing. */
  method SettleRest(disk: Disk, entries: seq<Entry>, extra: seq<string>, stale: seq<nat>, store: set<Digest>,
                    allowed: string -> bool)
    returns (ok: bool, out: Disk)
    requires NoDup(extra) && ParentsFirst(extra)
    requires forall name :: name in extra <==> name in disk && !Kept(disk, entries, name)
    requires forall i, name :: 0 <= i < |extra| && name in disk && IsParent(extra[i], name) ==> name in extra
    requires forall i: nat :: i in stale <==> i < |entries| && !InPlace(disk, entries[i])
    requires forall i :: 0 <= i < |entries| ==> !WrittenThrough(disk, entries[i])
    ensures ok ==> OnlyNeededDirs(out, entries) && (Consistent(entries) ==> Relinked(disk, out, entries))
    ensures ok ==>
      (Matches(out, entries) <==> Consistent(entries)) && CanSettle(disk, true, entries, store, allowed, true)
    ensures Flat(entries) && CanSettle(disk, true, entries, store, allowed, true) ==> ok
  {
    forall i | 0 <= i < |extra| ensures extra[i] in disk {
      assert extra[i] in extra;
    }
    forall i | 0 <= i < |stale| ensures stale[i] < |entries| {
      assert stale[i] in stale;
    }
    ok, out := RemoveExtras(disk, extra, allowed);
    if !ok {
      return;
    }
    AfterRemoval(disk, entries, extra, stale);
    var mid := out;
    ok, out := LinkStale(mid, entries, stale, store, allowed);
    if ok {
      PlacedMatches(out, entries);
      if Consistent(entries) {
        RelinkedAll(disk, mid, out, entries, stale);
      }
    }
  }

  /** Of a manifest that looks settled the files are exactly the manifest's when its names are distinct. */
  lemma FastMatches(disk: Disk, entries: seq<Entry>)
    requires LooksSettled(disk, entries)
    ensures Matches(disk, entries) <==> DistinctNames(entries)
  {
    if DistinctNames(entries) {
      CountingIsEnough(disk, entries);
    }
    if Matches(disk, entries) {
      forall name ensures name in FilesIn(disk) <==> name in NamesOf(entries) {
        MatchesByName(disk, entries, name);
      }
      assert FilesIn(disk) == NamesOf(entries);
      NamesCard(entries);
    }
  }

  lemma MatchesByName(disk: Disk, entries: seq<Entry>, name: string)
    requires Matches(disk, entries)
    ensures (name in disk && disk[name].FileNode?) <==> Named(entries, name)
  {
    if name in disk && disk[name].FileNode? {
      assert Entry(name, disk[name].digest) in entries;
    }
    if i :| 0 <= i < |entries| && entries[i].name == name {
      assert Entry(name, entries[i].digest) in entries;
    }
  }

  lemma MatchIsConsistent(disk: Disk, entries: seq<Entry>)
    requires Matches(disk, entries)
    ensures Consistent(entries)
  {
    forall i, j | 0 <= i < |entries| && 0 <= j < |entries| && entries[i].name == entries[j].name
      ensures entries[i] == entries[j]
    {
      assert Entry(entries[i].name, entries[i].digest) in entries
        && Entry(entries[j].name, entries[j].digest) in entries;
    }
  }

  lemma PlacedMatches(disk: Disk, entries: seq<Entry>)
    requires OnlyNamedFiles(disk, entries)
    requires Consistent(entries) ==> forall i :: 0 <= i < |entries| ==> InPlace(disk, entries[i])
    ensures Matches(disk, entries) <==> Consistent(entries)
  {
    if Consistent(entries) {
      PlacedIsMatch(disk, entries);
    } else if Matches(disk, entries) {
      MatchIsConsistent(disk, entries);
    }
  }

  /** The test of the fast path. */
  lemma FastPath(disk: Disk, entries: seq<Entry>, stale: seq<nat>, poisoned: seq<nat>, files: nat)
    requires files == |FilesIn(disk)|
    requires forall i: nat :: i in poisoned <==> i < |entries| && WrittenThrough(disk, entries[i])
    requires forall i: nat :: i in stale <==>
      i < |entries| && !InPlace(disk, entries[i]) && !WrittenThrough(disk, entries[i])
    ensures stale == [] && poisoned == [] && files == |entries| <==> LooksSettled(disk, entries)
  {
    if stale == [] && poisoned == [] {
      forall i | 0 <= i < |entries| ensures InPlace(disk, entries[i]) {
        assert i !in stale && i !in poisoned;
      }
    }
    assert stale != [] ==> stale[0] in stale;
    assert poisoned != [] ==> poisoned[0] in poisoned;
  }

  /** Whatever lies below an extra directory is extra itself. */
  lemma ExtrasAreClosed(disk: Disk, entries: seq<Entry>, walk: seq<string>, extra: seq<string>)
    requires Walks(disk, walk) && forall name :: name in extra <==> name in disk && !Kept(disk, entries, name)
    ensures forall i, name :: 0 <= i < |extra| && name in disk && IsParent(extra[i], name) ==> name in extra
  {
    forall i, name | 0 <= i < |extra| && name in disk && IsParent(extra[i], name) ensures name in extra {
      var dir := extra[i];
      assert dir in extra;
      var k :| 0 <= k < |walk| && walk[k] == dir;
      var l :| 0 <= l < |walk| && walk[l] == name;
      assert disk[dir].DirNode?;
      KeptBelow(disk, entries, dir, name);
    }
  }

  lemma KeptBelow(disk: Disk, entries: seq<Entry>, dir: string, name: string)
    requires name in disk && IsParent(dir, name)
    ensures Kept(disk, entries, name) ==> Above(entries, dir)
  {
    if Kept(disk, entries, name) && disk[name].DirNode? {
      var e :| 0 <= e < |entries| && IsParent(name, entries[e].name);
      ParentsChain(dir, name, entries[e].name);
    }
  }

  /** Removing the extras leaves named files and needed directories, and every settled entry in place. */
  lemma AfterRemoval(disk: Disk, entries: seq<Entry>, extra: seq<string>, stale: seq<nat>)
    requires forall name :: name in extra <==> name in disk && !Kept(disk, entries, name)
    requires forall i: nat :: i in stale <==> i < |entries| && !InPlace(disk, entries[i])
    ensures var out := disk - set name | name in extra;
      && OnlyNamedFiles(out, entries) && OnlyNeededDirs(out, entries)
      && forall i :: 0 <= i < |entries| && i !in stale ==>
           InPlace(out, entries[i]) && out[entries[i].name] == disk[entries[i].name]
  {
    var out := disk - set name | name in extra;
    forall i | 0 <= i < |entries| && i !in stale
      ensures InPlace(out, entries[i]) && out[entries[i].name] == disk[entries[i].name]
    {
      assert Named(entries, entries[i].name);
      assert entries[i].name !in extra;
    }
  }
}
