/** Why a cache key may stand for what was hashed into it (source/core/dag/dag.c:254-321): the streams fed
    for two keys are equal exactly when the keys are, unless two of the digests in them collide. */
module Streams {
  import opened Paths
  import opened Dag
  import opened Observations
  import opened Keys
  import World
  import Cache

  /** How digests, identities and answers become bytes, and what hashing makes of a stream. */
  datatype Coding = Coding(digest: World.Digest -> string, identity: nat -> string, answer: World.Answer -> string,
                           hash: string -> string)

  /** `f` does not take a member of `xs` and another member of `ys` to the same bytes. */
  ghost predicate Apart<T(!new)>(f: T -> string, xs: seq<T>, ys: seq<T>) {
    forall x, y :: x in xs && y in ys && f(x) == f(y) ==> x == y
  }

  const ROOTS := 10

  // ---------------------------------------------------------------- pinned roots as a mask

  /** The mask of the roots from `lo` on, `n` of them. */
  function MaskFrom(pinned: set<nat>, lo: nat, n: nat): nat
    decreases n
  {
    if n == 0 then 0 else (if lo in pinned then 1 else 0) + 2 * MaskFrom(pinned, lo + 1, n - 1)
  }

  function Mask(pinned: set<nat>): nat {
    MaskFrom(pinned, 0, ROOTS)
  }

  predicate RootsOnly(pinned: set<nat>) {
    forall r :: r in pinned ==> r < ROOTS
  }

  lemma {:induction false} NoBits(r: nat)
    ensures !HasRoot(0, r)
  {
    if r > 0 {
      NoBits(r - 1);
    }
  }

  lemma {:induction false} MaskBits(pinned: set<nat>, lo: nat, n: nat, r: nat)
    ensures HasRoot(MaskFrom(pinned, lo, n), r) <==> r < n && lo + r in pinned
    decreases n
  {
    if n == 0 {
      NoBits(r);
    } else if r > 0 {
      MaskBits(pinned, lo + 1, n - 1, r - 1);
    }
  }

  /** Bit for bit the mask is the set. */
  lemma MaskIsSet(pinned: set<nat>, other: set<nat>)
    requires RootsOnly(pinned) && RootsOnly(other)
    ensures forall r :: HasRoot(Mask(pinned), r) <==> r in pinned
    ensures Mask(pinned) == Mask(other) <==> pinned == other
  {
    forall r: nat ensures HasRoot(Mask(pinned), r) <==> r in pinned {
      MaskBits(pinned, 0, ROOTS, r);
    }
    forall r: nat ensures HasRoot(Mask(other), r) <==> r in other {
      MaskBits(other, 0, ROOTS, r);
    }
  }

  /** The rows fed under the mask are the pinned rows. */
  lemma {:induction false} MaskedRows(pinned: set<nat>, rows: seq<Obs>)
    requires RootsOnly(pinned)
    ensures Pinned(Mask(pinned), rows) == PinnedRows(pinned, rows)
  {
    if rows != [] {
      MaskedRows(pinned, rows[..|rows| - 1]);
      MaskIsSet(pinned, pinned);
    }
  }

  /** Feeding the pinned rows alone is feeding all rows. */
  lemma {:induction false} PinnedTwice(pinned: set<nat>, rows: seq<Obs>)
    ensures PinnedRows(pinned, PinnedRows(pinned, rows)) == PinnedRows(pinned, rows)
  {
    if rows != [] {
      PinnedTwice(pinned, rows[..|rows| - 1]);
    }
  }

  // ---------------------------------------------------------------- weak keys

  function Inputs(c: Coding, inputs: seq<(ArtifactKind, World.Digest)>): (r: seq<Input>)
    ensures |r| == |inputs| && forall i :: 0 <= i < |r| ==> r[i] == Input(inputs[i].0, c.digest(inputs[i].1))
  {
    seq(|inputs|, i requires 0 <= i < |inputs| => Input(inputs[i].0, c.digest(inputs[i].1)))
  }

  function Outputs(outputs: seq<(ArtifactKind, string)>): (r: seq<Output>)
    ensures |r| == |outputs| && forall i :: 0 <= i < |r| ==> r[i] == Output(outputs[i].0, outputs[i].1)
  {
    seq(|outputs|, i requires 0 <= i < |outputs| => Output(outputs[i].0, outputs[i].1))
  }

  function Fed(c: Coding, w: Cache.WeakKey): Weak {
    Weak(Mask(w.pinned), c.identity(w.identity), Inputs(c, w.inputs), Outputs(w.outputs))
  }

  function DigestsIn(w: Cache.WeakKey): (r: seq<World.Digest>)
    ensures |r| == |w.inputs| && forall i :: 0 <= i < |r| ==> r[i] == w.inputs[i].1
  {
    seq(|w.inputs|, i requires 0 <= i < |w.inputs| => w.inputs[i].1)
  }

  ghost predicate WeakOk(c: Coding, w: Cache.WeakKey) {
    WeakFits(Fed(c, w)) && RootsOnly(w.pinned)
  }

  ghost predicate WeakApart(c: Coding, v: Cache.WeakKey, w: Cache.WeakKey) {
    Apart(c.digest, DigestsIn(v), DigestsIn(w)) && Apart(c.identity, [v.identity], [w.identity])
  }

  lemma InputsAlike(c: Coding, v: Cache.WeakKey, w: Cache.WeakKey)
    requires Apart(c.digest, DigestsIn(v), DigestsIn(w)) && Inputs(c, v.inputs) == Inputs(c, w.inputs)
    ensures v.inputs == w.inputs
  {
    forall i | 0 <= i < |v.inputs| ensures v.inputs[i] == w.inputs[i] {
      assert Inputs(c, v.inputs)[i] == Inputs(c, w.inputs)[i];
      assert DigestsIn(v)[i] in DigestsIn(v) && DigestsIn(w)[i] in DigestsIn(w);
    }
  }

  lemma OutputsAlike(v: seq<(ArtifactKind, string)>, w: seq<(ArtifactKind, string)>)
    requires Outputs(v) == Outputs(w)
    ensures v == w
  {
    forall i | 0 <= i < |v| ensures v[i] == w[i] {
      assert Outputs(v)[i] == Outputs(w)[i];
    }
  }

  /** The streams of two weak keys are equal exactly when the keys are. */
  lemma WeakStreams(c: Coding, v: Cache.WeakKey, w: Cache.WeakKey)
    requires WeakOk(c, v) && WeakOk(c, w) && WeakApart(c, v, w)
    ensures WeakBytes(Fed(c, v)) == WeakBytes(Fed(c, w)) <==> v == w
  {
    if WeakBytes(Fed(c, v)) == WeakBytes(Fed(c, w)) {
      WeakIsDecodable(Fed(c, v), Fed(c, w));
      MaskIsSet(v.pinned, w.pinned);
      InputsAlike(c, v, w);
      OutputsAlike(v.outputs, w.outputs);
      assert v.identity in [v.identity] && w.identity in [w.identity];
    }
  }

  // ---------------------------------------------------------------- all keys

  function Answered(c: Coding, rows: seq<Obs>, answers: seq<World.Answer>): (r: seq<Resolved>)
    requires |rows| == |answers|
    ensures |r| == |rows| && forall i :: 0 <= i < |r| ==> r[i] == Resolved(rows[i], c.answer(answers[i]))
  {
    seq(|rows|, i requires 0 <= i < |rows| => Resolved(rows[i], c.answer(answers[i])))
  }

  function FedStrong(c: Coding, w: Cache.WeakKey, set_: Cache.PathSet, answers: seq<World.Answer>): Strong
    requires |set_.rows| == |answers|
  {
    Strong(c.hash(WeakBytes(Fed(c, w))), c.hash(PinnedBytes(Mask(w.pinned), set_.pinned)),
           Answered(c, set_.rows, answers))
  }

  /** The key is one a lookup or a commit may form, within the widths of the source. */
  ghost predicate KeyOk(c: Coding, key: Cache.Key) {
    && WeakOk(c, key.weak)
    && (key.Strong? ==>
          && |key.set_.rows| == |key.answers| && StrongFits(FedStrong(c, key.weak, key.set_, key.answers))
          && key.set_.pinned == PinnedRows(key.weak.pinned, key.set_.pinned)
          && IsU64(|key.set_.pinned|) && AllFit(RowFits, key.set_.pinned))
  }

  /** What `spn_dag_weak_key` or `spn_dag_strong_key` feeds. */
  ghost function Stream(c: Coding, key: Cache.Key): string
    requires KeyOk(c, key)
  {
    match key
    case Weak(w) => WeakBytes(Fed(c, w))
    case Strong(w, set_, answers) => StrongBytes(FedStrong(c, w, set_, answers))
  }

  /** No digest in one key collides with a different one in the other. */
  ghost predicate KeysApart(c: Coding, k: Cache.Key, l: Cache.Key) {
    && WeakApart(c, k.weak, l.weak)
    && (k.Strong? && l.Strong? ==>
          && Apart(c.answer, k.answers, l.answers)
          && Apart(c.hash, [WeakBytes(Fed(c, k.weak))], [WeakBytes(Fed(c, l.weak))])
          && Apart(c.hash, [PinnedBytes(Mask(k.weak.pinned), k.set_.pinned)],
                   [PinnedBytes(Mask(l.weak.pinned), l.set_.pinned)]))
  }

  lemma AnswersAlike(c: Coding, rows: seq<Obs>, answers: seq<World.Answer>, rows': seq<Obs>,
                     answers': seq<World.Answer>)
    requires |rows| == |answers| && |rows'| == |answers'| && Apart(c.answer, answers, answers')
    requires Answered(c, rows, answers) == Answered(c, rows', answers')
    ensures rows == rows' && answers == answers'
  {
    forall i | 0 <= i < |rows| ensures rows[i] == rows'[i] && answers[i] == answers'[i] {
      assert Answered(c, rows, answers)[i] == Answered(c, rows', answers')[i];
      assert answers[i] in answers && answers'[i] in answers';
    }
  }

  lemma StrongStreams(c: Coding, k: Cache.Key, l: Cache.Key)
    requires k.Strong? && l.Strong? && KeyOk(c, k) && KeyOk(c, l) && KeysApart(c, k, l) && Stream(c, k) == Stream(c, l)
    ensures k == l
  {
    StrongIsDecodable(FedStrong(c, k.weak, k.set_, k.answers), FedStrong(c, l.weak, l.set_, l.answers));
    var weak, weak' := WeakBytes(Fed(c, k.weak)), WeakBytes(Fed(c, l.weak));
    assert weak in [weak] && weak' in [weak'];
    WeakStreams(c, k.weak, l.weak);
    AnswersAlike(c, k.set_.rows, k.answers, l.set_.rows, l.answers);
    PinnedAlike(c, k, l);
  }

  lemma PinnedAlike(c: Coding, k: Cache.Key, l: Cache.Key)
    requires k.Strong? && l.Strong? && KeyOk(c, k) && KeyOk(c, l) && KeysApart(c, k, l)
    requires c.hash(PinnedBytes(Mask(k.weak.pinned), k.set_.pinned))
      == c.hash(PinnedBytes(Mask(l.weak.pinned), l.set_.pinned))
    ensures k.set_.pinned == l.set_.pinned
  {
    var fed, fed' := PinnedBytes(Mask(k.weak.pinned), k.set_.pinned), PinnedBytes(Mask(l.weak.pinned), l.set_.pinned);
    assert fed in [fed] && fed' in [fed'];
    PinnedIsDecodable(Mask(k.weak.pinned), k.set_.pinned, Mask(l.weak.pinned), l.set_.pinned);
    MaskedRows(k.weak.pinned, k.set_.pinned);
    MaskedRows(l.weak.pinned, l.set_.pinned);
  }

  /** The streams of two keys are equal exactly when the keys are, unless digests collide. */
  lemma StreamsAreKeys(c: Coding, k: Cache.Key, l: Cache.Key)
    requires KeyOk(c, k) && KeyOk(c, l) && KeysApart(c, k, l)
    ensures Stream(c, k) == Stream(c, l) <==> k == l
  {
    match (k, l)
    case (Weak(v), Weak(w)) =>
      WeakStreams(c, v, w);
    case (Weak(v), Strong(w, set_, answers)) =>
      KindsAreApart(Fed(c, v), FedStrong(c, w, set_, answers), 0, []);
    case (Strong(w, set_, answers), Weak(v)) =>
      KindsAreApart(Fed(c, v), FedStrong(c, w, set_, answers), 0, []);
    case (Strong(_, _, _), Strong(_, _, _)) =>
      if Stream(c, k) == Stream(c, l) {
        StrongStreams(c, k, l);
      }
  }

  /** The sets that lookups and commits put into keys are of the required form. */
  lemma SetsAreFormed(w: Cache.WeakKey, rows: seq<Obs>)
    ensures Cache.SetOf(w, rows).pinned == PinnedRows(w.pinned, Cache.SetOf(w, rows).pinned)
    ensures RootsOnly(w.pinned) ==>
      PinnedBytes(Mask(w.pinned), Cache.SetOf(w, rows).pinned) == PinnedBytes(Mask(w.pinned), rows)
  {
    PinnedTwice(w.pinned, rows);
    if RootsOnly(w.pinned) {
      MaskedRows(w.pinned, rows);
      MaskedRows(w.pinned, PinnedRows(w.pinned, rows));
    }
  }
}
