/** The file system as observations see it (source/core/dag/run.c:531-618), and actions as programs
    that read it. A content digest stands for the content. */
module World {
  import opened Paths
  import opened Dag
  import opened Observations
  import opened Targets

  type Digest = nat

  /** The content of every file; directories exist where files lie below them. */
  type Fs = map<Path, Digest>

  datatype Answer = Missing | Content(digest: Digest) | Listing(entries: set<(string, bool)>)

  /** Which names a filter lets through. */
  type Glob = (string, string) -> bool

  function FirstPart(s: string): (string, bool) {
    if s == "" then ("", false)
    else if s[0] == '/' then ("", true)
    else var rest := FirstPart(s[1..]); ([s[0]] + rest.0, rest.1)
  }

  /** The entry of `dir` through which `q` is reached, and whether it is a directory. */
  function Entry(dir: Path, q: Path): (string, bool) {
    var skip := if dir.sub == "" then 0 else |dir.sub| + 1;
    if skip <= |q.sub| then FirstPart(q.sub[skip..]) else ("", false)
  }

  predicate StrictlyWithin(dir: Path, q: Path) {
    Within(dir, q) && q != dir
  }

  /** The members of a directory: the filter applies to files only. */
  function List(glob: Glob, fs: Fs, dir: Path, filter: string): set<(string, bool)> {
    set q | q in fs && StrictlyWithin(dir, q) && (Entry(dir, q).1 || filter == "" || glob(filter, Entry(dir, q).0)) ::
      Entry(dir, q)
  }

  predicate IsDir(fs: Fs, p: Path) {
    exists q :: q in fs && StrictlyWithin(p, q)
  }

  /** `resolve_one`. */
  function Look(glob: Glob, fs: Fs, o: Obs): Answer {
    if o.kind.ObsEnumeration? then Listing(List(glob, fs, o.path, o.filter))
    else if o.path in fs then Content(fs[o.path])
    else if IsDir(fs, o.path) then Listing(List(glob, fs, o.path, ""))
    else Missing
  }

  /** A missing path is an answer for everything except a file observation. */
  predicate Resolves(o: Obs, answer: Answer) {
    !(o.kind.ObsFile? && answer.Missing?)
  }

  predicate SameAt(f: Fs, g: Fs, q: Path) {
    (q in f <==> q in g) && (q in f ==> f[q] == g[q])
  }

  /** An answer depends on the files at and below the observed path only. */
  lemma LookFrame(glob: Glob, f: Fs, g: Fs, o: Obs)
    requires forall q :: Within(o.path, q) || q == o.path ==> SameAt(f, g, q)
    ensures Look(glob, f, o) == Look(glob, g, o)
  {
    ListFrame(glob, f, g, o.path, o.filter);
    ListFrame(glob, f, g, o.path, "");
    assert SameAt(f, g, o.path);
    if q :| q in f && StrictlyWithin(o.path, q) {
      assert SameAt(f, g, q);
    }
    if q :| q in g && StrictlyWithin(o.path, q) {
      assert SameAt(f, g, q);
    }
  }

  lemma ListFrame(glob: Glob, f: Fs, g: Fs, dir: Path, filter: string)
    requires forall q :: Within(dir, q) ==> SameAt(f, g, q)
    ensures List(glob, f, dir, filter) == List(glob, g, dir, filter)
  {
    forall e ensures e in List(glob, f, dir, filter) <==> e in List(glob, g, dir, filter) {
      if e in List(glob, f, dir, filter) {
        var q :| q in f && StrictlyWithin(dir, q) && (Entry(dir, q).1 || filter == "" || glob(filter, Entry(dir, q).0))
          && Entry(dir, q) == e;
        assert SameAt(f, g, q);
      }
      if e in List(glob, g, dir, filter) {
        var q :| q in g && StrictlyWithin(dir, q) && (Entry(dir, q).1 || filter == "" || glob(filter, Entry(dir, q).0))
          && Entry(dir, q) == e;
        assert SameAt(f, g, q);
      }
    }
  }

  /** What the names in a directory begin with. */
  function Prefix(dir: Path): string {
    if dir.sub == "" then "" else dir.sub + "/"
  }

  predicate Passes(glob: Glob, filter: string, name: string) {
    filter == "" || glob(filter, name)
  }

  /** The file `q` is the member `name` of `dir`, or lies in it. */
  predicate Shows(dir: Path, q: Path, name: string, isDir: bool) {
    && q.root == dir.root && q != dir && '/' !in name
    && if isDir then Prefix(dir) + (name + "/") <= q.sub else q.sub == Prefix(dir) + name
  }

  lemma {:induction false} FirstPartMeans(s: string, name: string)
    requires '/' !in name
    ensures FirstPart(s) == (name, false) <==> s == name
    ensures FirstPart(s) == (name, true) <==> name + "/" <= s
    decreases s
  {
    if s != "" && s[0] != '/' && name != "" && name[0] == s[0] {
      FirstPartMeans(s[1..], name[1..]);
      assert name == [name[0]] + name[1..] && s == [s[0]] + s[1..];
      assert name + "/" == [name[0]] + (name[1..] + "/");
    } else if s != "" && s[0] == '/' {
      assert name == "" || name[0] != '/';
    }
  }

  lemma {:induction false} FirstPartIsName(s: string)
    ensures '/' !in FirstPart(s).0
  {
    if s != "" && s[0] != '/' {
      FirstPartIsName(s[1..]);
    }
  }

  lemma EntryMeans(dir: Path, q: Path, name: string, isDir: bool)
    requires Anchored(dir) && Anchored(q) && (dir.sub == "" ==> dir.root != NONE) && '/' !in name
    ensures StrictlyWithin(dir, q) && Entry(dir, q) == (name, isDir) <==> Shows(dir, q, name, isDir)
  {
    var front := Prefix(dir);
    if StrictlyWithin(dir, q) {
      var tail := q.sub[|front|..];
      assert q.sub == front + tail;
      FirstPartMeans(tail, name);
      assert front + (name + "/") <= q.sub <==> name + "/" <= tail;
    }
  }

  /** The members of a directory: the names of its files that pass the filter, and of the directories that
      lead to a file, whatever the filter. */
  lemma Members(glob: Glob, fs: Fs, dir: Path, filter: string, name: string, isDir: bool)
    requires Anchored(dir) && (dir.sub == "" ==> dir.root != NONE) && forall q :: q in fs ==> Anchored(q)
    ensures (name, isDir) in List(glob, fs, dir, filter) <==>
      (isDir || Passes(glob, filter, name)) && exists q :: q in fs && Shows(dir, q, name, isDir)
  {
    if (name, isDir) in List(glob, fs, dir, filter) {
      var q :| q in fs && StrictlyWithin(dir, q) && Entry(dir, q) == (name, isDir)
        && (Entry(dir, q).1 || filter == "" || glob(filter, Entry(dir, q).0));
      FirstPartIsName(q.sub[|Prefix(dir)|..]);
      EntryMeans(dir, q, name, isDir);
    }
    if q :| q in fs && Shows(dir, q, name, isDir) {
      EntryMeans(dir, q, name, isDir);
    }
  }

  /** What an observation is answered: a file's content, the listing of a directory, or that nothing is there;
      only an enumeration applies its filter. */
  lemma AnswersMean(glob: Glob, fs: Fs, o: Obs)
    ensures o.kind.ObsEnumeration? ==> Look(glob, fs, o) == Listing(List(glob, fs, o.path, o.filter))
    ensures !o.kind.ObsEnumeration? && o.path in fs ==> Look(glob, fs, o) == Content(fs[o.path])
    ensures !o.kind.ObsEnumeration? && o.path !in fs ==>
      if exists q :: q in fs && StrictlyWithin(o.path, q) then Look(glob, fs, o) == Listing(List(glob, fs, o.path, ""))
      else Look(glob, fs, o) == Missing
  {
  }

  // ---------------------------------------------------------------- programs

  /** A deterministic action: a tree of reads that ends in one digest for each output. */
  datatype Program = Return(outputs: seq<Digest>) | Read(o: Obs, next: imap<Answer, Program>)

  /** How each observation is answered. */
  type Oracle = Obs -> Answer

  /** The outputs, or nothing when the program has no continuation for an answer. */
  function Outcome(program: Program, oracle: Oracle): Option<seq<Digest>> {
    match program
    case Return(outputs) => Some(outputs)
    case Read(o, next) => if oracle(o) in next then Outcome(next[oracle(o)], oracle) else None
  }

  /** The observations made, in order. */
  function Trace(program: Program, oracle: Oracle): seq<Obs> {
    match program
    case Return(_) => []
    case Read(o, next) => [o] + if oracle(o) in next then Trace(next[oracle(o)], oracle) else []
  }

  /** Two executions whose shared observations are answered alike are the same execution. */
  lemma {:induction false} Replay(program: Program, f: Oracle, g: Oracle)
    requires forall o :: o in Trace(program, f) && o in Trace(program, g) ==> f(o) == g(o)
    ensures Outcome(program, f) == Outcome(program, g) && Trace(program, f) == Trace(program, g)
  {
    if program.Read? {
      var o := program.o;
      assert o in Trace(program, f) && o in Trace(program, g);
      if f(o) in program.next {
        var rest := program.next[f(o)];
        forall x | x in Trace(rest, f) && x in Trace(rest, g) ensures f(x) == g(x) {
          assert x in Trace(program, f) && x in Trace(program, g);
        }
        Replay(rest, f, g);
      }
    }
  }

  // ---------------------------------------------------------------- outputs

  /** The files a tree digest stands for, by name relative to the tree. */
  type Manifests = Digest -> map<string, Digest>

  /** Materialising artifact `t` decides what is at `q`. */
  predicate Writes(g: Graph, t: nat, q: Path) {
    && g.Located(t)
    && if g.artifacts[t].kind.Tree? then Within(g.artifacts[t].path, q) else q == g.artifacts[t].path
  }

  /** What is at `q` once `t` is materialised from `digest`. */
  function Written(g: Graph, manifests: Manifests, t: nat, digest: Digest, q: Path): Option<Digest>
    requires t < |g.artifacts|
  {
    if !g.artifacts[t].kind.Tree? then Some(digest)
    else
      var base := g.artifacts[t].path;
      var skip := if base.sub == "" then 0 else |base.sub| + 1;
      if skip <= |q.sub| && q.sub[skip..] in manifests(digest) then Some(manifests(digest)[q.sub[skip..]]) else None
  }

  predicate Holds(fs: Fs, q: Path, content: Option<Digest>) {
    match content
    case None => q !in fs
    case Some(d) => q in fs && fs[q] == d
  }

  /** No output lies strictly below what a non-enumeration observes: where the index agrees with
      `spn_dag_output_overlaps`. */
  ghost predicate Covered(g: Graph, o: Obs) {
    o.kind.ObsEnumeration? || forall t :: 0 <= t < |g.artifacts| && g.Located(t) ==>
      !StrictlyWithin(o.path, g.artifacts[t].path)
  }

  /** Whoever decides a file that an observation depends on is seen by the observation. */
  lemma WritersAreSeen(g: Graph, o: Obs, t: nat, q: Path)
    requires PathsSound(g) && t < |g.artifacts| && Writes(g, t, q) && Covered(g, o)
    requires Within(o.path, q) || q == o.path
    ensures Overlaps(g, t, o)
  {
    var base := g.artifacts[t].path;
    if g.artifacts[t].kind.Tree? && !Within(base, o.path) && !Within(o.path, base) {
      PrefixesNest(base, o.path, q);
    }
  }

  /** Two directories above the same path lie one within the other. */
  lemma PrefixesNest(a: Path, b: Path, q: Path)
    requires Within(a, q) && (Within(b, q) || q == b)
    ensures Within(a, b) || Within(b, a) || a == b
  {
    if a.sub != "" && b.sub != "" && Within(b, q) {
      if |a.sub| <= |b.sub| {
        assert a.sub == q.sub[..|a.sub|] == b.sub[..|a.sub|];
      } else {
        assert b.sub == q.sub[..|b.sub|] == a.sub[..|b.sub|];
      }
    }
  }
}
