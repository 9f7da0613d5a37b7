/** The byte streams behind weak, pinned and strong keys (source/core/dag/dag.c:196-321). A byte is a
    char; the digest itself is left to an injective function, so two keys are equal exactly when the
    streams are. Everything is framed, so a stream can be read back in only one way. */
module Keys {
  import opened Bytes
  import opened Paths
  import opened Dag
  import opened Observations

  /** What `spn_dag_weak_key` feeds. `pinned` is the mask of pinned roots. */
  datatype Weak = Weak(pinned: nat, identity: string, inputs: seq<Input>, outputs: seq<Output>)

  datatype Input = Input(kind: ArtifactKind, digest: string)

  datatype Output = Output(kind: ArtifactKind, name: string)

  /** An observation with what it resolved to. */
  datatype Resolved = Resolved(obs: Obs, digest: string)

  /** What `spn_dag_strong_key` feeds. */
  datatype Strong = Strong(weak: string, pinned: string, rows: seq<Resolved>)

  const DIGEST_BYTES := 32
  const WEAK_HEADER := "spn.dag.action.v4"
  const STRONG_HEADER := "spn.dag.strong.v8"
  const PINNED_HEADER := "spn.dag.pinned.v1"

  // ---------------------------------------------------------------- the primitives

  function Power(base: nat, e: nat): (r: nat)
    ensures base > 0 ==> r > 0
  {
    if e == 0 then 1 else base * Power(base, e - 1)
  }

  function U8(value: nat): string {
    [(value % 256) as char]
  }

  /** `width` bytes, least significant first. */
  function LittleEndian(value: nat, width: nat): (r: string)
    ensures |r| == width
  {
    if width == 0 then "" else U8(value) + LittleEndian(value / 256, width - 1)
  }

  predicate IsU64(value: nat) {
    value < 0x1_0000_0000_0000_0000
  }

  function U64(value: nat): string {
    LittleEndian(value, 8)
  }

  function Str(s: string): string {
    U64(|s|) + s
  }

  function KindByte(kind: ArtifactKind): nat {
    match kind
    case Value => 0
    case File => 1
    case Tree => 2
  }

  function ObsByte(kind: ObsKind): nat {
    match kind
    case ObsFile => 0
    case ObsAbsent => 1
    case ObsEnumeration => 2
  }

  // ---------------------------------------------------------------- the streams

  function InputBytes(input: Input): string {
    U8(KindByte(input.kind)) + input.digest
  }

  function OutputBytes(output: Output): string {
    U8(KindByte(output.kind)) + Str(output.name)
  }

  function WeakBytes(w: Weak): string {
    Str(WEAK_HEADER) + (U64(w.pinned) + (w.identity
      + (U64(|w.inputs|) + (Cat(InputBytes, w.inputs) + (U64(|w.outputs|) + Cat(OutputBytes, w.outputs))))))
  }

  function RowBytes(o: Obs): string {
    U8(ObsByte(o.kind)) + (U8(o.path.root) + (Str(o.path.sub) + Str(o.filter)))
  }

  function ResolvedBytes(r: Resolved): string {
    RowBytes(r.obs) + r.digest
  }

  function StrongBytes(s: Strong): string {
    Str(STRONG_HEADER) + (s.weak + (s.pinned + (U64(|s.rows|) + Cat(ResolvedBytes, s.rows))))
  }

  /** Bit `root` of the mask. */
  predicate HasRoot(mask: nat, root: nat) {
    if root == 0 then mask % 2 == 1 else HasRoot(mask / 2, root - 1)
  }

  /** The rows under pinned roots, in order. */
  function Pinned(mask: nat, rows: seq<Obs>): seq<Obs> {
    if rows == [] then []
    else
      var rest := Pinned(mask, rows[..|rows| - 1]);
      if HasRoot(mask, rows[|rows| - 1].path.root) then rest + [rows[|rows| - 1]] else rest
  }

  function PinnedBytes(mask: nat, rows: seq<Obs>): string {
    Str(PINNED_HEADER) + (U64(|Pinned(mask, rows)|) + Cat(RowBytes, Pinned(mask, rows)))
  }

  // ---------------------------------------------------------------- the widths of the source

  predicate IsDigest(d: string) {
    |d| == DIGEST_BYTES
  }

  predicate InputFits(input: Input) {
    IsDigest(input.digest)
  }

  predicate OutputFits(output: Output) {
    IsU64(|output.name|)
  }

  predicate RowFits(o: Obs) {
    o.path.root < 256 && IsU64(|o.path.sub|) && IsU64(|o.filter|)
  }

  predicate ResolvedFits(r: Resolved) {
    RowFits(r.obs) && IsDigest(r.digest)
  }

  predicate AllFit<T>(ok: T -> bool, xs: seq<T>) {
    forall i :: 0 <= i < |xs| ==> ok(xs[i])
  }

  predicate WeakFits(w: Weak) {
    && IsU64(w.pinned) && IsDigest(w.identity) && IsU64(|w.inputs|) && IsU64(|w.outputs|)
    && AllFit(InputFits, w.inputs) && AllFit(OutputFits, w.outputs)
  }

  predicate StrongFits(s: Strong) {
    IsDigest(s.weak) && IsDigest(s.pinned) && IsU64(|s.rows|) && AllFit(ResolvedFits, s.rows)
  }

  // ---------------------------------------------------------------- reading back from the front

  lemma FixedCancel(a: string, b: string, x: string, y: string)
    requires |a| == |b| && a + x == b + y
    ensures a == b && x == y
  {
    assert a == (a + x)[..|a|] && b == (b + y)[..|b|];
    assert x == (a + x)[|a|..] && y == (b + y)[|b|..];
  }

  lemma U8Cancel(m: nat, n: nat)
    requires m < 256 && n < 256 && U8(m) == U8(n)
    ensures m == n
  {
    assert (m as char) as int == m && (n as char) as int == n;
    assert U8(m)[0] == U8(n)[0];
  }

  lemma {:induction false} LittleEndianCancel(m: nat, n: nat, width: nat)
    requires m < Power(256, width) && n < Power(256, width) && LittleEndian(m, width) == LittleEndian(n, width)
    ensures m == n
  {
    if width > 0 {
      FixedCancel(U8(m), U8(n), LittleEndian(m / 256, width - 1), LittleEndian(n / 256, width - 1));
      U8Cancel(m % 256, n % 256);
      LittleEndianCancel(m / 256, n / 256, width - 1);
    }
  }

  lemma U64Cancel(m: nat, n: nat, x: string, y: string)
    requires IsU64(m) && IsU64(n) && U64(m) + x == U64(n) + y
    ensures m == n && x == y
  {
    FixedCancel(U64(m), U64(n), x, y);
    assert Power(256, 4) == 0x1_0000_0000 && Power(256, 8) == 0x1_0000_0000_0000_0000;
    LittleEndianCancel(m, n, 8);
  }

  lemma StrCancel(s: string, t: string, x: string, y: string)
    requires IsU64(|s|) && IsU64(|t|) && Str(s) + x == Str(t) + y
    ensures s == t && x == y
  {
    assert Str(s) + x == U64(|s|) + (s + x) && Str(t) + y == U64(|t|) + (t + y);
    U64Cancel(|s|, |t|, s + x, t + y);
    FixedCancel(s, t, x, y);
  }

  /** No encoding of one element is a proper prefix of another's. */
  ghost predicate PrefixFree<T(!new)>(ok: T -> bool, f: T -> string) {
    forall a, b, x, y | ok(a) && ok(b) && f(a) + x == f(b) + y :: a == b && x == y
  }

  lemma {:induction false} ListCancel<T(!new)>(ok: T -> bool, f: T -> string, xs: seq<T>, ys: seq<T>, x: string,
                                        y: string)
    requires PrefixFree(ok, f) && |xs| == |ys| && AllFit(ok, xs) && AllFit(ok, ys)
    requires Cat(f, xs) + x == Cat(f, ys) + y
    ensures xs == ys && x == y
  {
    if xs == [] {
      assert "" + x == x && "" + y == y;
    } else {
      var k := |xs| - 1;
      assert Cat(f, xs) + x == Cat(f, xs[..k]) + (f(xs[k]) + x);
      assert Cat(f, ys) + y == Cat(f, ys[..k]) + (f(ys[k]) + y);
      ListCancel(ok, f, xs[..k], ys[..k], f(xs[k]) + x, f(ys[k]) + y);
      assert xs == xs[..k] + [xs[k]] && ys == ys[..k] + [ys[k]];
    }
  }

  /** A counted list can be told apart from what follows it. */
  lemma CountedCancel<T(!new)>(ok: T -> bool, f: T -> string, xs: seq<T>, ys: seq<T>, x: string, y: string)
    requires PrefixFree(ok, f) && IsU64(|xs|) && IsU64(|ys|) && AllFit(ok, xs) && AllFit(ok, ys)
    requires U64(|xs|) + (Cat(f, xs) + x) == U64(|ys|) + (Cat(f, ys) + y)
    ensures xs == ys && x == y
  {
    U64Cancel(|xs|, |ys|, Cat(f, xs) + x, Cat(f, ys) + y);
    ListCancel(ok, f, xs, ys, x, y);
  }

  lemma InputCancel(a: Input, b: Input, x: string, y: string)
    requires InputFits(a) && InputFits(b) && InputBytes(a) + x == InputBytes(b) + y
    ensures a == b && x == y
  {
    FixedCancel(InputBytes(a), InputBytes(b), x, y);
    FixedCancel(U8(KindByte(a.kind)), U8(KindByte(b.kind)), a.digest, b.digest);
    U8Cancel(KindByte(a.kind), KindByte(b.kind));
  }

  lemma OutputCancel(a: Output, b: Output, x: string, y: string)
    requires OutputFits(a) && OutputFits(b) && OutputBytes(a) + x == OutputBytes(b) + y
    ensures a == b && x == y
  {
    assert OutputBytes(a) + x == U8(KindByte(a.kind)) + (Str(a.name) + x);
    assert OutputBytes(b) + y == U8(KindByte(b.kind)) + (Str(b.name) + y);
    FixedCancel(U8(KindByte(a.kind)), U8(KindByte(b.kind)), Str(a.name) + x, Str(b.name) + y);
    U8Cancel(KindByte(a.kind), KindByte(b.kind));
    StrCancel(a.name, b.name, x, y);
  }

  /** A row and what follows, from the front. */
  lemma RowFrom(o: Obs, x: string)
    ensures RowBytes(o) + x == U8(ObsByte(o.kind)) + (U8(o.path.root) + (Str(o.path.sub) + (Str(o.filter) + x)))
  {
    hide U8, Str;
    Assoc(U8(ObsByte(o.kind)), U8(o.path.root) + (Str(o.path.sub) + Str(o.filter)), x);
    Assoc(U8(o.path.root), Str(o.path.sub) + Str(o.filter), x);
    Assoc(Str(o.path.sub), Str(o.filter), x);
  }

  lemma ByteCancel(m: nat, n: nat, x: string, y: string)
    requires m < 256 && n < 256 && U8(m) + x == U8(n) + y
    ensures m == n && x == y
  {
    FixedCancel(U8(m), U8(n), x, y);
    U8Cancel(m, n);
  }

  lemma RowCancel(a: Obs, b: Obs, x: string, y: string)
    requires RowFits(a) && RowFits(b) && RowBytes(a) + x == RowBytes(b) + y
    ensures a == b && x == y
  {
    hide U8, Str, RowBytes;
    var u, v := Str(a.filter) + x, Str(b.filter) + y;
    RowFrom(a, x);
    RowFrom(b, y);
    ByteCancel(ObsByte(a.kind), ObsByte(b.kind), U8(a.path.root) + (Str(a.path.sub) + u),
               U8(b.path.root) + (Str(b.path.sub) + v));
    ByteCancel(a.path.root, b.path.root, Str(a.path.sub) + u, Str(b.path.sub) + v);
    StrCancel(a.path.sub, b.path.sub, u, v);
    StrCancel(a.filter, b.filter, x, y);
  }

  lemma ResolvedCancel(a: Resolved, b: Resolved, x: string, y: string)
    requires ResolvedFits(a) && ResolvedFits(b) && ResolvedBytes(a) + x == ResolvedBytes(b) + y
    ensures a == b && x == y
  {
    assert ResolvedBytes(a) + x == RowBytes(a.obs) + (a.digest + x);
    assert ResolvedBytes(b) + y == RowBytes(b.obs) + (b.digest + y);
    RowCancel(a.obs, b.obs, a.digest + x, b.digest + y);
    FixedCancel(a.digest, b.digest, x, y);
  }

  lemma ElementsArePrefixFree()
    ensures PrefixFree(InputFits, InputBytes) && PrefixFree(OutputFits, OutputBytes)
    ensures PrefixFree(RowFits, RowBytes) && PrefixFree(ResolvedFits, ResolvedBytes)
  {
    forall a, b, x, y | InputFits(a) && InputFits(b) && InputBytes(a) + x == InputBytes(b) + y
      ensures a == b && x == y
    {
      InputCancel(a, b, x, y);
    }
    forall a, b, x, y | OutputFits(a) && OutputFits(b) && OutputBytes(a) + x == OutputBytes(b) + y
      ensures a == b && x == y
    {
      OutputCancel(a, b, x, y);
    }
    forall a, b, x, y | RowFits(a) && RowFits(b) && RowBytes(a) + x == RowBytes(b) + y ensures a == b && x == y {
      RowCancel(a, b, x, y);
    }
    forall a, b, x, y | ResolvedFits(a) && ResolvedFits(b) && ResolvedBytes(a) + x == ResolvedBytes(b) + y
      ensures a == b && x == y
    {
      ResolvedCancel(a, b, x, y);
    }
  }

  // ---------------------------------------------------------------- the keys are decodable

  /** Equal weak streams come from equal pinned masks, identities, inputs and outputs. */
  lemma WeakIsDecodable(v: Weak, w: Weak)
    requires WeakFits(v) && WeakFits(w) && WeakBytes(v) == WeakBytes(w)
    ensures v == w
  {
    ElementsArePrefixFree();
    var outs, outs' := U64(|v.outputs|) + Cat(OutputBytes, v.outputs), U64(|w.outputs|) + Cat(OutputBytes, w.outputs);
    var ins, ins' :=
      U64(|v.inputs|) + (Cat(InputBytes, v.inputs) + outs), U64(|w.inputs|) + (Cat(InputBytes, w.inputs) + outs');
    StrCancel(WEAK_HEADER, WEAK_HEADER, U64(v.pinned) + (v.identity + ins), U64(w.pinned) + (w.identity + ins'));
    U64Cancel(v.pinned, w.pinned, v.identity + ins, w.identity + ins');
    FixedCancel(v.identity, w.identity, ins, ins');
    CountedCancel(InputFits, InputBytes, v.inputs, w.inputs, outs, outs');
    LastList(OutputFits, OutputBytes, v.outputs, w.outputs);
  }

  lemma LastList<T(!new)>(ok: T -> bool, f: T -> string, xs: seq<T>, ys: seq<T>)
    requires PrefixFree(ok, f) && IsU64(|xs|) && IsU64(|ys|) && AllFit(ok, xs) && AllFit(ok, ys)
    requires U64(|xs|) + Cat(f, xs) == U64(|ys|) + Cat(f, ys)
    ensures xs == ys
  {
    assert Cat(f, xs) + "" == Cat(f, xs) && Cat(f, ys) + "" == Cat(f, ys);
    CountedCancel(ok, f, xs, ys, "", "");
  }

  /** Equal strong streams come from equal weak and pinned digests and equal rows with equal answers. */
  lemma StrongIsDecodable(s: Strong, t: Strong)
    requires StrongFits(s) && StrongFits(t) && StrongBytes(s) == StrongBytes(t)
    ensures s == t
  {
    ElementsArePrefixFree();
    var rows, rows' := U64(|s.rows|) + Cat(ResolvedBytes, s.rows), U64(|t.rows|) + Cat(ResolvedBytes, t.rows);
    StrCancel(STRONG_HEADER, STRONG_HEADER, s.weak + (s.pinned + rows), t.weak + (t.pinned + rows'));
    FixedCancel(s.weak, t.weak, s.pinned + rows, t.pinned + rows');
    FixedCancel(s.pinned, t.pinned, rows, rows');
    LastList(ResolvedFits, ResolvedBytes, s.rows, t.rows);
  }

  lemma {:induction false} PinnedFits(mask: nat, rows: seq<Obs>)
    requires AllFit(RowFits, rows)
    ensures AllFit(RowFits, Pinned(mask, rows)) && |Pinned(mask, rows)| <= |rows|
  {
    if rows != [] {
      PinnedFits(mask, rows[..|rows| - 1]);
    }
  }

  /** Pinned streams are equal exactly when the pinned rows are. */
  lemma PinnedIsDecodable(mask: nat, rows: seq<Obs>, mask': nat, rows': seq<Obs>)
    requires IsU64(|rows|) && IsU64(|rows'|) && AllFit(RowFits, rows) && AllFit(RowFits, rows')
    ensures PinnedBytes(mask, rows) == PinnedBytes(mask', rows') <==> Pinned(mask, rows) == Pinned(mask', rows')
  {
    if PinnedBytes(mask, rows) == PinnedBytes(mask', rows') {
      ElementsArePrefixFree();
      PinnedFits(mask, rows);
      PinnedFits(mask', rows');
      var kept, kept' := Pinned(mask, rows), Pinned(mask', rows');
      StrCancel(PINNED_HEADER, PINNED_HEADER, U64(|kept|) + Cat(RowBytes, kept), U64(|kept'|) + Cat(RowBytes, kept'));
      LastList(RowFits, RowBytes, kept, kept');
    }
  }

  /** A key of one kind never has the stream of another kind. */
  lemma KindsAreApart(w: Weak, s: Strong, mask: nat, rows: seq<Obs>)
    ensures WeakBytes(w) != StrongBytes(s) && WeakBytes(w) != PinnedBytes(mask, rows)
    ensures StrongBytes(s) != PinnedBytes(mask, rows)
  {
    var at := 8 + 8;
    assert WeakBytes(w)[at] == WEAK_HEADER[8];
    assert StrongBytes(s)[at] == STRONG_HEADER[8];
    assert PinnedBytes(mask, rows)[at] == PINNED_HEADER[8];
  }

  // ---------------------------------------------------------------- feeding the context

  lemma PinnedNext(mask: nat, rows: seq<Obs>, k: nat)
    requires k < |rows|
    ensures Cat(RowBytes, Pinned(mask, rows[..k + 1]))
      == if HasRoot(mask, rows[k].path.root) then Cat(RowBytes, Pinned(mask, rows[..k])) + RowBytes(rows[k])
         else Cat(RowBytes, Pinned(mask, rows[..k]))
  {
    assert rows[..k + 1][..k] == rows[..k];
    var rest := Pinned(mask, rows[..k]);
    assert (rest + [rows[k]])[..|rest|] == rest;
  }

  lemma Join(a: string, b: string, c: string, d: string, e: string)
    ensures "" + a + b + c + d + e == a + (b + (c + (d + e)))
    ensures "" + a + b + c + d == a + (b + (c + d))
    ensures "" + a + b + c == a + (b + c)
  {
    assert "" + a == a;
  }

  class Context {
    var fed: string

    constructor ()
      ensures fed == ""
    {
      fed := "";
    }

    method HashBytes(data: string)
      modifies this
      ensures fed == old(fed) + data
    {
      fed := fed + data;
    }

    method HashU8(value: nat)
      modifies this
      ensures fed == old(fed) + U8(value)
    {
      HashBytes(U8(value));
    }

    method HashU64(value: nat)
      modifies this
      ensures fed == old(fed) + U64(value)
    {
      HashBytes(U64(value));
    }

    method HashStr(s: string)
      modifies this
      ensures fed == old(fed) + Str(s)
    {
      HashU64(|s|);
      HashBytes(s);
    }

    method HashObsRow(o: Obs)
      modifies this
      ensures fed == old(fed) + RowBytes(o)
    {
      HashU8(ObsByte(o.kind));
      HashU8(o.path.root);
      HashStr(o.path.sub);
      HashStr(o.filter);
    }

    method HashInputs(inputs: seq<Input>)
      modifies this
      ensures fed == old(fed) + (U64(|inputs|) + Cat(InputBytes, inputs))
    {
      HashU64(|inputs|);
      for it := 0 to |inputs|
        invariant fed == old(fed) + (U64(|inputs|) + Cat(InputBytes, inputs[..it]))
      {
        HashU8(KindByte(inputs[it].kind));
        HashBytes(inputs[it].digest);
        CatNext(InputBytes, inputs, it);
      }
      assert inputs[..|inputs|] == inputs;
    }

    method HashOutputs(outputs: seq<Output>)
      modifies this
      ensures fed == old(fed) + (U64(|outputs|) + Cat(OutputBytes, outputs))
    {
      HashU64(|outputs|);
      for it := 0 to |outputs|
        invariant fed == old(fed) + (U64(|outputs|) + Cat(OutputBytes, outputs[..it]))
      {
        HashU8(KindByte(outputs[it].kind));
        HashStr(outputs[it].name);
        CatNext(OutputBytes, outputs, it);
      }
      assert outputs[..|outputs|] == outputs;
    }

    method HashResolvedRow(r: Resolved)
      modifies this
      ensures fed == old(fed) + ResolvedBytes(r)
    {
      HashObsRow(r.obs);
      HashBytes(r.digest);
    }

    method HashResolved(rows: seq<Resolved>)
      modifies this
      ensures fed == old(fed) + Cat(ResolvedBytes, rows)
    {
      Assoc(fed, "", "");
      for it := 0 to |rows|
        invariant fed == old(fed) + Cat(ResolvedBytes, rows[..it])
      {
        CatNext(ResolvedBytes, rows, it);
        Assoc(old(fed), Cat(ResolvedBytes, rows[..it]), ResolvedBytes(rows[it]));
        HashResolvedRow(rows[it]);
      }
      assert rows[..|rows|] == rows;
    }

    method HashPinned(mask: nat, rows: seq<Obs>)
      modifies this
      ensures fed == old(fed) + Cat(RowBytes, Pinned(mask, rows))
    {
      Assoc(fed, "", "");
      for it := 0 to |rows|
        invariant fed == old(fed) + Cat(RowBytes, Pinned(mask, rows[..it]))
      {
        PinnedNext(mask, rows, it);
        Assoc(old(fed), Cat(RowBytes, Pinned(mask, rows[..it])), RowBytes(rows[it]));
        if HasRoot(mask, rows[it].path.root) {
          HashObsRow(rows[it]);
        }
      }
      assert rows[..|rows|] == rows;
    }
  }

  /** `spn_dag_weak_key`, up to the final digest. */
  method WeakKey(w: Weak) returns (stream: string)
    ensures stream == WeakBytes(w)
  {
    var ctx := new Context();
    ctx.HashStr(WEAK_HEADER);
    ctx.HashU64(w.pinned);
    ctx.HashBytes(w.identity);
    ctx.HashInputs(w.inputs);
    ctx.HashOutputs(w.outputs);
    Join(Str(WEAK_HEADER), U64(w.pinned), w.identity, U64(|w.inputs|) + Cat(InputBytes, w.inputs),
         U64(|w.outputs|) + Cat(OutputBytes, w.outputs));
    stream := ctx.fed;
  }

  /** `spn_dag_strong_key`, up to the final digest. */
  method StrongKey(s: Strong) returns (stream: string)
    ensures stream == StrongBytes(s)
  {
    var ctx := new Context();
    ctx.HashStr(STRONG_HEADER);
    ctx.HashBytes(s.weak);
    ctx.HashBytes(s.pinned);
    ctx.HashU64(|s.rows|);
    ctx.HashResolved(s.rows);
    Join(Str(STRONG_HEADER), s.weak, s.pinned, U64(|s.rows|), Cat(ResolvedBytes, s.rows));
    stream := ctx.fed;
  }

  /** `spn_dag_pinned_digest`, up to the final digest: one pass counts the rows, the next feeds them. */
  method PinnedKey(mask: nat, rows: seq<Obs>) returns (stream: string)
    ensures stream == PinnedBytes(mask, rows)
  {
    var count := 0;
    for it := 0 to |rows|
      invariant count == |Pinned(mask, rows[..it])|
    {
      assert rows[..it + 1][..it] == rows[..it];
      if HasRoot(mask, rows[it].path.root) {
        count := count + 1;
      }
    }
    assert rows[..|rows|] == rows;
    var ctx := new Context();
    ctx.HashStr(PINNED_HEADER);
    ctx.HashU64(count);
    ctx.HashPinned(mask, rows);
    Join(Str(PINNED_HEADER), U64(count), Cat(RowBytes, Pinned(mask, rows)), "", "");
    stream := ctx.fed;
  }

  // ---------------------------------------------------------------- the bytes, spelt out

  /** A small number in eight bytes. */
  function Small(n: nat): string
    requires n < 256
  {
    [n as char, 0 as char, 0 as char, 0 as char, 0 as char, 0 as char, 0 as char, 0 as char]
  }

  lemma SmallIs(n: nat)
    requires n < 256
    ensures U64(n) == Small(n)
  {
    assert LittleEndian(0, 1) == [0 as char];
    assert LittleEndian(0, 3) == [0 as char, 0 as char, 0 as char];
    assert LittleEndian(0, 5) == [0 as char, 0 as char, 0 as char, 0 as char, 0 as char];
    assert LittleEndian(0, 7) == [0 as char, 0 as char, 0 as char, 0 as char, 0 as char, 0 as char, 0 as char];
  }

  lemma StrIs(s: string, n: nat)
    requires |s| == n < 256
    ensures Str(s) == Small(n) + s
  {
    SmallIs(n);
  }

  lemma HeadersAre()
    ensures Str(WEAK_HEADER) == Small(17) + "spn.dag.action.v4" && Str(STRONG_HEADER) == Small(17) + "spn.dag.strong.v8"
    ensures Str(PINNED_HEADER) == Small(17) + "spn.dag.pinned.v1"
    ensures U8(0) == [0 as char] && U8(1) == [1 as char] && U8(2) == [2 as char]
    ensures U8(3) == [3 as char] && U8(4) == [4 as char]
  {
    StrIs(WEAK_HEADER, 17);
    StrIs(STRONG_HEADER, 17);
    StrIs(PINNED_HEADER, 17);
  }

  /** The stream of one weak key: an action with a file for input and a tree for output. */
  lemma WeakSample(identity: string, digest: string)
    ensures WeakBytes(Weak(5, identity, [Input(File, digest)], [Output(Tree, "out")]))
         == (Small(17) + "spn.dag.action.v4") + (Small(5) + (identity
              + (Small(1) + (([1 as char] + digest) + (Small(1) + ([2 as char] + (Small(3) + "out")))))))
  {
    hide U64, Str, Small, Cat;
    HeadersAre();
    StrIs("out", 3);
    SmallIs(5);
    SmallIs(1);
    CatOne(InputBytes, Input(File, digest));
    CatOne(OutputBytes, Output(Tree, "out"));
  }

  /** The stream of one strong key, with an enumeration for its only row. */
  lemma StrongSample(weak: string, pinned: string, digest: string)
    ensures StrongBytes(Strong(weak, pinned, [Resolved(Obs(ObsEnumeration, Path(4, "src"), "*.c"), digest)]))
         == (Small(17) + "spn.dag.strong.v8") + (weak + (pinned + (Small(1)
              + (([2 as char] + ([4 as char] + ((Small(3) + "src") + (Small(3) + "*.c")))) + digest))))
  {
    hide U64, Str, Small, Cat;
    HeadersAre();
    StrIs("src", 3);
    StrIs("*.c", 3);
    SmallIs(1);
    CatOne(ResolvedBytes, Resolved(Obs(ObsEnumeration, Path(4, "src"), "*.c"), digest));
  }

  lemma CatOne<T>(f: T -> string, x: T)
    ensures Cat(f, [x]) == f(x)
  {
    assert [x][..0] == [];
    assert "" + f(x) == f(x);
  }

  /** The stream of one pinned digest: of two rows the one under a pinned root, bit 3 of the mask, counts. */
  lemma PinnedSample()
    ensures PinnedBytes(8, [Obs(ObsFile, Path(3, "a"), ""), Obs(ObsAbsent, Path(4, "b"), "")])
         == (Small(17) + "spn.dag.pinned.v1") + (Small(1)
              + ([0 as char] + ([3 as char] + ((Small(1) + "a") + (Small(0) + "")))))
  {
    hide U64, Str, Small, Cat;
    HeadersAre();
    StrIs("a", 1);
    StrIs("", 0);
    SmallIs(1);
    var rows := [Obs(ObsFile, Path(3, "a"), ""), Obs(ObsAbsent, Path(4, "b"), "")];
    assert HasRoot(8, 3) && !HasRoot(8, 4);
    assert rows[..1][..0] == [] && rows[..1][0] == rows[0] && rows[..1] == [rows[0]];
    assert Pinned(8, rows[..1]) == [rows[0]];
    assert Pinned(8, rows) == [rows[0]];
    CatOne(RowBytes, rows[0]);
  }
}
