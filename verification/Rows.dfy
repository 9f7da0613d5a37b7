/** The rows the store keeps on disk: output lists, observation sets and file hints
    (source/core/dag/store.c:29-233, 458-518; source/core/dag/dag.c:354-375). */
module Rows {
  import opened Bytes
  import opened Paths
  import opened Observations

  type Byte = n: nat | n < 256

  type Digest = d: seq<Byte> | |d| == 32 witness seq(32, i => 0)

  datatype Output = Output(digest: Digest, name: string)

  datatype PathSet = PathSet(pinned: Digest, rows: seq<Obs>)

  datatype Meta = Meta(device: nat, inode: nat, seconds: int, nanoseconds: int, size: int, digest: Digest)

  datatype Hint = Hint(path: Path, meta: Meta)

  /** What a parser found, and the text behind it. */
  datatype Parsed<+T> = Parsed(value: T, rest: string)

  const ROOT_COUNT := 10
  const TWO_63 := 0x8000_0000_0000_0000
  const TWO_64 := 0x1_0000_0000_0000_0000

  // ---------------------------------------------------------------- numbers

  predicate IsDigit(c: char) {
    '0' <= c <= '9'
  }

  function DigitValue(c: char): (r: nat)
    requires IsDigit(c)
    ensures r < 10
  {
    c as int - '0' as int
  }

  function LeadingDigits(s: string): (k: nat)
    ensures k <= |s| && (forall i :: 0 <= i < k ==> IsDigit(s[i])) && (k < |s| ==> !IsDigit(s[k]))
  {
    if s == "" || !IsDigit(s[0]) then 0 else 1 + LeadingDigits(s[1..])
  }

  /** The number a run of digits stands for. */
  function Decimal(s: string): nat
    requires forall i :: 0 <= i < |s| ==> IsDigit(s[i])
  {
    if s == "" then 0 else Decimal(s[..|s| - 1]) * 10 + DigitValue(s[|s| - 1])
  }

  /** The same number as the source accumulates it, in 64 bits. */
  function Decimal64(s: string): (r: nat)
    requires forall i :: 0 <= i < |s| ==> IsDigit(s[i])
    ensures r < TWO_64
  {
    if s == "" then 0 else (Decimal64(s[..|s| - 1]) * 10 + DigitValue(s[|s| - 1])) % TWO_64
  }

  function TakeU64(s: string): (r: Option<Parsed<nat>>)
    ensures r.Some? ==> |r.value.rest| <= |s|
  {
    var k := LeadingDigits(s);
    if k == 0 then None else Some(Parsed(Decimal64(s[..k]), s[k..]))
  }

  /** A 64-bit pattern read as a signed number, and negation on signed numbers. */
  function Signed(value: nat): int
    requires value < TWO_64
  {
    if value < TWO_63 then value else value - TWO_64
  }

  function Negated(value: int): int {
    if value == -TWO_63 then value else -value
  }

  function TakeS64(s: string): (r: Option<Parsed<int>>)
    ensures r.Some? ==> |r.value.rest| <= |s|
  {
    var negative := s != "" && s[0] == '-';
    match TakeU64(if negative then s[1..] else s)
    case None => None
    case Some(p) => Some(Parsed(if negative then Negated(Signed(p.value)) else Signed(p.value), p.rest))
  }

  function PrintU64(n: nat): (r: string)
    ensures r != "" && forall i :: 0 <= i < |r| ==> IsDigit(r[i])
  {
    var last := [('0' as int + n % 10) as char];
    if n < 10 then last else PrintU64(n / 10) + last
  }

  function PrintS64(n: int): string {
    if n < 0 then "-" + PrintU64(-n) else PrintU64(n)
  }

  lemma DigitsThenTail(digits: string, tail: string)
    requires forall i :: 0 <= i < |digits| ==> IsDigit(digits[i])
    requires tail == "" || !IsDigit(tail[0])
    ensures LeadingDigits(digits + tail) == |digits|
  {
    var s := digits + tail;
    assert forall i | 0 <= i < |digits| :: s[i] == digits[i];
    assert tail != "" ==> s[|digits|] == tail[0];
  }

  /** Every number met while accumulating a printed 64-bit number fits in 64 bits. */
  lemma {:induction false} PrintedPrefixFits(n: nat, k: nat)
    requires k <= |PrintU64(n)|
    ensures Decimal(PrintU64(n)) == n
    ensures Decimal(PrintU64(n)[..k]) <= n
  {
    var s := PrintU64(n);
    var last := |s| - 1;
    if n >= 10 {
      assert s[..last] == PrintU64(n / 10);
      PrintedPrefixFits(n / 10, if k <= last then k else last);
    }
    if k <= last {
      assert s[..k] == s[..last][..k];
    } else {
      assert s[..k] == s;
    }
  }

  /** Within 64 bits nothing wraps. */
  lemma {:induction false} NoWrap(s: string)
    requires forall i :: 0 <= i < |s| ==> IsDigit(s[i])
    requires forall k :: 0 <= k <= |s| ==> Decimal(s[..k]) < TWO_64
    ensures Decimal64(s) == Decimal(s)
  {
    if s != "" {
      var front := s[..|s| - 1];
      forall k | 0 <= k <= |front| ensures Decimal(front[..k]) < TWO_64 {
        assert front[..k] == s[..k];
      }
      NoWrap(front);
      assert s[..|s|] == s;
    }
  }

  lemma U64ReadsBack(n: nat, tail: string)
    requires n < TWO_64 && (tail == "" || !IsDigit(tail[0]))
    ensures TakeU64(PrintU64(n) + tail) == Some(Parsed(n, tail))
  {
    var s := PrintU64(n);
    DigitsThenTail(s, tail);
    forall k | 0 <= k <= |s| ensures Decimal(s[..k]) < TWO_64 {
      PrintedPrefixFits(n, k);
    }
    PrintedPrefixFits(n, |s|);
    NoWrap(s);
    Split(s, tail);
  }

  lemma SignedFromUnsigned(s: string, n: nat, tail: string)
    requires TakeU64(s) == Some(Parsed(n, tail)) && s != "" && s[0] != '-'
    ensures n < TWO_63 ==> TakeS64(s) == Some(Parsed(n, tail))
    ensures 0 < n <= TWO_63 ==> TakeS64("-" + s) == Some(Parsed(-(n as int), tail))
  {
    Split("-", s);
    assert ("-" + s)[0] == '-';
  }

  lemma S64ReadsBack(n: int, tail: string)
    requires -TWO_63 <= n < TWO_63 && (tail == "" || !IsDigit(tail[0]))
    ensures TakeS64(PrintS64(n) + tail) == Some(Parsed(n, tail))
  {
    var size: nat := if n < 0 then -n else n;
    U64ReadsBack(size, tail);
    assert (PrintU64(size) + tail)[0] == PrintU64(size)[0];
    SignedFromUnsigned(PrintU64(size) + tail, size, tail);
    Assoc("-", PrintU64(size), tail);
  }

  // ---------------------------------------------------------------- literals, bytes, strings, lines

  function TakeLit(s: string, c: char): Option<string> {
    if s != "" && s[0] == c then Some(s[1..]) else None
  }

  function TakeBytes(s: string, len: nat): (r: Option<Parsed<string>>)
    ensures r.Some? ==> |r.value.rest| <= |s|
  {
    if |s| < len then None else Some(Parsed(s[..len], s[len..]))
  }

  function TakeStr(s: string): (r: Option<Parsed<string>>)
    ensures r.Some? ==> |r.value.rest| <= |s|
  {
    match TakeU64(s)
    case None => None
    case Some(len) =>
      match TakeLit(len.rest, ':')
      case None => None
      case Some(rest) => TakeBytes(rest, len.value)
  }

  function LineEnd(s: string): (k: nat)
    ensures k <= |s| && (forall i :: 0 <= i < k ==> s[i] != '\n') && (k < |s| ==> s[k] == '\n')
  {
    if s == "" || s[0] == '\n' then 0 else 1 + LineEnd(s[1..])
  }

  function TakeLine(s: string): (r: Option<Parsed<string>>)
    ensures r.Some? ==> |r.value.rest| <= |s|
  {
    var k := LineEnd(s);
    if k < |s| then Some(Parsed(s[..k], s[k + 1..])) else None
  }

  function PrintStr(s: string): string {
    PrintU64(|s|) + (":" + s)
  }

  lemma StrReadsBack(s: string, tail: string)
    requires |s| < TWO_64
    ensures TakeStr(PrintStr(s) + tail) == Some(Parsed(s, tail))
  {
    U64ReadsBack(|s|, ":" + (s + tail));
    Past(PrintU64(|s|), ":", s, tail);
    Split(":", s + tail);
    Split(s, tail);
  }

  lemma LineReadsBack(s: string, tail: string)
    requires '\n' !in s
    ensures TakeLine(s + "\n" + tail) == Some(Parsed(s, tail))
  {
    var all := s + "\n" + tail;
    assert all[|s|] == '\n' && forall i | 0 <= i < |s| :: all[i] == s[i];
    assert all[..|s|] == s && all[|s| + 1..] == tail;
  }

  // ---------------------------------------------------------------- digests

  function HexDigit(n: nat): char
    requires n < 16
  {
    if n < 10 then ('0' as int + n) as char else ('a' as int + n - 10) as char
  }

  function NibbleOf(c: char): (r: Option<nat>)
    ensures r.Some? ==> r.value < 16
  {
    if '0' <= c <= '9' then Some(c as int - '0' as int)
    else if 'a' <= c <= 'f' then Some(c as int - 'a' as int + 10)
    else None
  }

  function Hex(d: seq<Byte>): (r: string)
    ensures |r| == 2 * |d|
  {
    if d == [] then ""
    else Hex(d[..|d| - 1]) + [HexDigit(d[|d| - 1] / 16), HexDigit(d[|d| - 1] % 16)]
  }

  /** The bytes of an even run of lower-case hex digits. */
  function Unhex(s: string): (r: Option<seq<Byte>>)
    requires |s| % 2 == 0
    ensures r.Some? ==> 2 * |r.value| == |s|
  {
    if s == "" then Some([])
    else
      var k := |s| - 2;
      var high, low := NibbleOf(s[k]), NibbleOf(s[k + 1]);
      var front := Unhex(s[..k]);
      if front.None? || high.None? || low.None? then None else Some(front.value + [high.value * 16 + low.value])
  }

  lemma ByteReadsBack(b: Byte)
    ensures NibbleOf(HexDigit(b / 16)) == Some(b / 16) && NibbleOf(HexDigit(b % 16)) == Some(b % 16)
  {
  }

  lemma PairReadsBack(s: string, front: seq<Byte>, b: Byte)
    requires |s| % 2 == 0 && Unhex(s) == Some(front)
    ensures Unhex(s + [HexDigit(b / 16), HexDigit(b % 16)]) == Some(front + [b])
  {
    hide HexDigit, NibbleOf;
    ByteReadsBack(b);
    var pair := [HexDigit(b / 16), HexDigit(b % 16)];
    Split(s, pair);
    assert (s + pair)[|s|] == pair[0] && (s + pair)[|s| + 1] == pair[1];
  }

  lemma {:induction false} HexReadsBack(d: seq<Byte>)
    ensures Unhex(Hex(d)) == Some(d)
  {
    hide Unhex, HexDigit;
    if d != [] {
      var front, last := d[..|d| - 1], d[|d| - 1];
      HexReadsBack(front);
      PairReadsBack(Hex(front), front, last);
      assert d == front + [last];
    } else {
      NoHex();
    }
  }

  lemma NoHex()
    ensures Unhex("") == Some([])
  {
  }

  function TakeDigest(s: string): (r: Option<Parsed<Digest>>)
    ensures r.Some? ==> |r.value.rest| <= |s|
  {
    if |s| < 64 then None
    else
      match Unhex(s[..64])
      case None => None
      case Some(d) => Some(Parsed(d, s[64..]))
  }

  lemma DigestReadsBack(d: Digest, tail: string)
    ensures TakeDigest(Hex(d) + tail) == Some(Parsed(d, tail))
  {
    HexReadsBack(d);
    Split(Hex(d), tail);
  }

  // ---------------------------------------------------------------- one row

  /** `sp_fs_is_absolute`, on systems with '/' paths. */
  predicate Absolute(sub: string) {
    sub != "" && sub[0] == '/'
  }

  function PrintOutput(o: Output): string
  {
    Hex(o.digest) + (" " + (PrintStr(o.name) + "\n"))
  }

  function TakeOutput(s: string): (r: Option<Parsed<Output>>)
    ensures r.Some? ==> |r.value.rest| < |s|
  {
    match TakeDigest(s)
    case None => None
    case Some(digest) =>
      match TakeLit(digest.rest, ' ')
      case None => None
      case Some(at) =>
        match TakeStr(at)
        case None => None
        case Some(name) =>
          match TakeLit(name.rest, '\n')
          case None => None
          case Some(rest) => Some(Parsed(Output(digest.value, name.value), rest))
  }

  function KindChar(kind: ObsKind): char {
    match kind
    case ObsFile => 'f'
    case ObsAbsent => 'a'
    case ObsEnumeration => 'e'
  }

  function KindOf(c: char): Option<ObsKind> {
    if c == 'f' then Some(ObsFile)
    else if c == 'a' then Some(ObsAbsent)
    else if c == 'e' then Some(ObsEnumeration)
    else None
  }

  function PrintObs(o: Obs): string {
    [KindChar(o.kind)] + (" " + (PrintU64(o.path.root) + (" "
      + ((if o.kind.ObsEnumeration? then PrintStr(o.filter) + " " else "") + (o.path.sub + "\n")))))
  }

  /** A root number below the count, a blank. */
  function TakeRoot(s: string): (r: Option<Parsed<nat>>)
    ensures r.Some? ==> |r.value.rest| <= |s|
  {
    match TakeU64(s)
    case None => None
    case Some(root) =>
      match TakeLit(root.rest, ' ')
      case None => None
      case Some(rest) => if root.value < ROOT_COUNT then Some(Parsed(root.value, rest)) else None
  }

  /** The rest of a row: the sub path. Without a root it must be absolute. */
  function TakeSub(root: nat, s: string): (r: Option<Parsed<Path>>)
    ensures r.Some? ==> |r.value.rest| <= |s|
  {
    match TakeLine(s)
    case None => None
    case Some(sub) =>
      if root == NONE && !Absolute(sub.value) then None else Some(Parsed(Path(root, sub.value), sub.rest))
  }

  function TakeFilter(kind: ObsKind, s: string): (r: Option<Parsed<string>>)
    ensures r.Some? ==> |r.value.rest| <= |s|
  {
    if !kind.ObsEnumeration? then Some(Parsed("", s))
    else
      match TakeStr(s)
      case None => None
      case Some(filter) =>
        match TakeLit(filter.rest, ' ')
        case None => None
        case Some(rest) => Some(Parsed(filter.value, rest))
  }

  function TakeObs(s: string): (r: Option<Parsed<Obs>>)
    ensures r.Some? ==> |r.value.rest| < |s|
  {
    if s == "" || KindOf(s[0]).None? then None
    else
      match TakeLit(s[1..], ' ')
      case None => None
      case Some(at) => TakeObsOf(KindOf(s[0]).value, at)
  }

  /** An observation row behind its kind. */
  function TakeObsOf(kind: ObsKind, s: string): (r: Option<Parsed<Obs>>)
    ensures r.Some? ==> |r.value.rest| <= |s|
  {
    match TakeRoot(s)
    case None => None
    case Some(root) =>
      match TakeFilter(kind, root.rest)
      case None => None
      case Some(filter) =>
        match TakeSub(root.value, filter.rest)
        case None => None
        case Some(path) => Some(Parsed(Obs(kind, path.value, filter.value), path.rest))
  }

  function PrintHint(h: Hint): string
  {
    HintBefore(h, h.path.sub + "\n")
  }

  /** All of a hint row in front of its path. */
  function HintBefore(h: Hint, line: string): string
  {
    PrintU64(h.meta.inode) + (" " + (PrintS64(h.meta.seconds) + (" " + (PrintS64(h.meta.nanoseconds) + (" "
      + (PrintS64(h.meta.size) + (" " + (Hex(h.meta.digest) + (" " + (PrintU64(h.path.root) + (" " + line)))))))))))
  }

  function TakeU64Blank(s: string): (r: Option<Parsed<nat>>)
    ensures r.Some? ==> |r.value.rest| <= |s|
  {
    match TakeU64(s)
    case None => None
    case Some(n) =>
      match TakeLit(n.rest, ' ')
      case None => None
      case Some(rest) => Some(Parsed(n.value, rest))
  }

  function TakeS64Blank(s: string): (r: Option<Parsed<int>>)
    ensures r.Some? ==> |r.value.rest| <= |s|
  {
    match TakeS64(s)
    case None => None
    case Some(n) =>
      match TakeLit(n.rest, ' ')
      case None => None
      case Some(rest) => Some(Parsed(n.value, rest))
  }

  function TakeDigestBlank(s: string): (r: Option<Parsed<Digest>>)
    ensures r.Some? ==> |r.value.rest| <= |s|
  {
    match TakeDigest(s)
    case None => None
    case Some(d) =>
      match TakeLit(d.rest, ' ')
      case None => None
      case Some(rest) => Some(Parsed(d.value, rest))
  }

  function TakeHint(s: string): (r: Option<Parsed<Hint>>)
    ensures r.Some? ==> |r.value.rest| < |s|
  {
    match TakeU64Blank(s)
    case None => None
    case Some(inode) =>
      match TakeS64Blank(inode.rest)
      case None => None
      case Some(seconds) =>
        match TakeS64Blank(seconds.rest)
        case None => None
        case Some(nanoseconds) =>
          match TakeS64Blank(nanoseconds.rest)
          case None => None
          case Some(size) =>
            match TakeDigestBlank(size.rest)
            case None => None
            case Some(digest) =>
              match TakeRoot(digest.rest)
              case None => None
              case Some(root) =>
                match TakeSub(root.value, root.rest)
                case None => None
                case Some(path) =>
                  var meta := Meta(0, inode.value, seconds.value, nanoseconds.value, size.value, digest.value);
                  Some(Parsed(Hint(path.value, meta), path.rest))
  }

  // ---------------------------------------------------------------- one row, round trip

  /** What the types of the source guarantee of an output, an observation, a hint. */
  predicate OutputFits(o: Output) {
    |o.name| < TWO_64
  }

  predicate ObsFits(o: Obs) {
    o.path.root < ROOT_COUNT && |o.filter| < TWO_64 && '\n' !in o.path.sub
  }

  predicate HintFits(h: Hint) {
    && h.meta.inode < TWO_64 && -TWO_63 <= h.meta.seconds < TWO_63 && -TWO_63 <= h.meta.nanoseconds < TWO_63
    && -TWO_63 <= h.meta.size < TWO_63 && h.path.root < ROOT_COUNT && '\n' !in h.path.sub
  }

  /** Paths without a root are read back only when they are absolute. */
  predicate Readable(path: Path) {
    path.root == NONE ==> Absolute(path.sub)
  }

  /** What a printed observation is read back as: the filter of a row that is no enumeration is lost. */
  function ObsBack(o: Obs): Obs {
    if o.kind.ObsEnumeration? then o else o.(filter := "")
  }

  /** What a printed hint is read back as: the device is not written. */
  function HintBack(h: Hint): Hint {
    h.(meta := h.meta.(device := 0))
  }

  lemma OutputReadsBack(o: Output, tail: string)
    requires OutputFits(o)
    ensures TakeOutput(PrintOutput(o) + tail) == Some(Parsed(o, tail))
  {
    var name := PrintStr(o.name) + ("\n" + tail);
    OutputText(o, tail);
    DigestReadsBack(o.digest, " " + name);
    Split(" ", name);
    StrReadsBack(o.name, "\n" + tail);
    Split("\n", tail);
  }

  lemma OutputText(o: Output, tail: string)
    ensures PrintOutput(o) + tail == Hex(o.digest) + (" " + (PrintStr(o.name) + ("\n" + tail)))
  {
    Past(Hex(o.digest), " ", PrintStr(o.name) + "\n", tail);
    Assoc(PrintStr(o.name), "\n", tail);
  }

  lemma SubReadsBack(path: Path, tail: string)
    requires '\n' !in path.sub
    ensures TakeSub(path.root, path.sub + "\n" + tail) == if Readable(path) then Some(Parsed(path, tail)) else None
  {
    LineReadsBack(path.sub, tail);
  }

  lemma RootReadsBack(root: nat, tail: string)
    requires root < ROOT_COUNT
    ensures TakeRoot(PrintU64(root) + (" " + tail)) == Some(Parsed(root, tail))
  {
    U64ReadsBack(root, " " + tail);
    Split(" ", tail);
  }

  lemma FilterReadsBack(o: Obs, tail: string)
    requires |o.filter| < TWO_64
    ensures TakeFilter(o.kind, (if o.kind.ObsEnumeration? then PrintStr(o.filter) + " " else "") + tail)
         == Some(Parsed(ObsBack(o).filter, tail))
  {
    if o.kind.ObsEnumeration? {
      StrReadsBack(o.filter, " " + tail);
      assert PrintStr(o.filter) + " " + tail == PrintStr(o.filter) + (" " + tail);
      Split(" ", tail);
    } else {
      assert "" + tail == tail;
    }
  }

  lemma ObsReadsBack(o: Obs, tail: string)
    requires ObsFits(o)
    ensures TakeObs(PrintObs(o) + tail) == if Readable(o.path) then Some(Parsed(ObsBack(o), tail)) else None
  {
    var line := o.path.sub + "\n" + tail;
    var filter := (if o.kind.ObsEnumeration? then PrintStr(o.filter) + " " else "") + line;
    var root := PrintU64(o.path.root) + (" " + filter);
    ObsText(o, tail, line, filter, root);
    RootReadsBack(o.path.root, filter);
    FilterReadsBack(o, line);
    SubReadsBack(o.path, tail);
    ObsFromParts(o, PrintObs(o) + tail, root, filter, line, tail);
  }

  lemma ObsFromParts(o: Obs, s: string, root: string, filter: string, line: string, tail: string)
    requires s == [KindChar(o.kind)] + (" " + root) && TakeRoot(root) == Some(Parsed(o.path.root, filter))
    requires TakeFilter(o.kind, filter) == Some(Parsed(ObsBack(o).filter, line))
    requires TakeSub(o.path.root, line) == if Readable(o.path) then Some(Parsed(o.path, tail)) else None
    ensures TakeObs(s) == if Readable(o.path) then Some(Parsed(ObsBack(o), tail)) else None
  {
    KindReadsBack(o.kind, s, root);
    ObsBehindKind(o, root, filter, line, tail);
  }

  lemma KindReadsBack(kind: ObsKind, s: string, rest: string)
    requires s == [KindChar(kind)] + (" " + rest)
    ensures TakeObs(s) == TakeObsOf(kind, rest)
  {
    Split([KindChar(kind)], " " + rest);
    LitReadsBack(' ', rest);
    KindIsKnown(kind);
  }

  lemma KindIsKnown(kind: ObsKind)
    ensures KindOf(KindChar(kind)) == Some(kind)
  {
  }

  lemma LitReadsBack(c: char, rest: string)
    ensures TakeLit([c] + rest, c) == Some(rest)
  {
    Split([c], rest);
  }

  lemma ObsBehindKind(o: Obs, root: string, filter: string, line: string, tail: string)
    requires TakeRoot(root) == Some(Parsed(o.path.root, filter))
    requires TakeFilter(o.kind, filter) == Some(Parsed(ObsBack(o).filter, line))
    requires TakeSub(o.path.root, line) == if Readable(o.path) then Some(Parsed(o.path, tail)) else None
    ensures TakeObsOf(o.kind, root) == if Readable(o.path) then Some(Parsed(ObsBack(o), tail)) else None
  {
  }

  lemma ObsText(o: Obs, tail: string, line: string, filter: string, root: string)
    requires line == o.path.sub + "\n" + tail
    requires filter == (if o.kind.ObsEnumeration? then PrintStr(o.filter) + " " else "") + line
    requires root == PrintU64(o.path.root) + (" " + filter)
    ensures PrintObs(o) + tail == [KindChar(o.kind)] + (" " + root)
  {
  }

  lemma NumbersReadBack(n: nat, m: int, d: Digest, tail: string)
    requires n < TWO_64 && -TWO_63 <= m < TWO_63
    ensures TakeU64Blank(PrintU64(n) + (" " + tail)) == Some(Parsed(n, tail))
    ensures TakeS64Blank(PrintS64(m) + (" " + tail)) == Some(Parsed(m, tail))
    ensures TakeDigestBlank(Hex(d) + (" " + tail)) == Some(Parsed(d, tail))
  {
    U64ReadsBack(n, " " + tail);
    S64ReadsBack(m, " " + tail);
    DigestReadsBack(d, " " + tail);
    Split(" ", tail);
  }

  lemma HintReadsBack(h: Hint, tail: string)
    requires HintFits(h)
    ensures TakeHint(PrintHint(h) + tail) == if Readable(h.path) then Some(Parsed(HintBack(h), tail)) else None
  {
    var m := h.meta;
    var line := h.path.sub + "\n" + tail;
    var root := PrintU64(h.path.root) + (" " + line);
    var digest := Hex(m.digest) + (" " + root);
    var size := PrintS64(m.size) + (" " + digest);
    var nanoseconds := PrintS64(m.nanoseconds) + (" " + size);
    var seconds := PrintS64(m.seconds) + (" " + nanoseconds);
    HintText(h, tail);
    NumbersReadBack(m.inode, 0, m.digest, seconds);
    NumbersReadBack(0, m.seconds, m.digest, nanoseconds);
    NumbersReadBack(0, m.nanoseconds, m.digest, size);
    NumbersReadBack(0, m.size, m.digest, digest);
    NumbersReadBack(0, 0, m.digest, root);
    RootReadsBack(h.path.root, line);
    SubReadsBack(h.path, tail);
    HintFromParts(h, seconds, nanoseconds, size, digest, root, line, tail);
  }

  lemma HintFromParts(h: Hint, seconds: string, nanoseconds: string, size: string, digest: string, root: string,
                      line: string, tail: string)
    requires TakeS64Blank(seconds) == Some(Parsed(h.meta.seconds, nanoseconds))
    requires TakeS64Blank(nanoseconds) == Some(Parsed(h.meta.nanoseconds, size))
    requires TakeS64Blank(size) == Some(Parsed(h.meta.size, digest))
    requires TakeDigestBlank(digest) == Some(Parsed(h.meta.digest, root))
    requires TakeRoot(root) == Some(Parsed(h.path.root, line))
    requires TakeSub(h.path.root, line) == if Readable(h.path) then Some(Parsed(h.path, tail)) else None
    ensures forall s :: TakeU64Blank(s) == Some(Parsed(h.meta.inode, seconds)) ==>
      TakeHint(s) == if Readable(h.path) then Some(Parsed(HintBack(h), tail)) else None
  {
  }

  /** A printed hint with text behind it. */
  lemma HintText(h: Hint, tail: string)
    ensures PrintHint(h) + tail == HintBefore(h, h.path.sub + "\n" + tail)
  {
    var m, line := h.meta, h.path.sub + "\n";
    var root := PrintU64(h.path.root) + (" " + line);
    var digest := Hex(m.digest) + (" " + root);
    var size := PrintS64(m.size) + (" " + digest);
    var nanoseconds := PrintS64(m.nanoseconds) + (" " + size);
    var seconds := PrintS64(m.seconds) + (" " + nanoseconds);
    Past(PrintU64(m.inode), " ", seconds, tail);
    Past(PrintS64(m.seconds), " ", nanoseconds, tail);
    Past(PrintS64(m.nanoseconds), " ", size, tail);
    Past(PrintS64(m.size), " ", digest, tail);
    Past(Hex(m.digest), " ", root, tail);
    Past(PrintU64(h.path.root), " ", line, tail);
  }

  // ---------------------------------------------------------------- whole files

  /** A row parser never stands still. */
  ghost predicate Shrinks<T>(row: string -> Option<Parsed<T>>) {
    forall s :: row(s).Some? ==> |row(s).value.rest| < |s|
  }

  /** Rows until the text runs out; nothing if one of them is malformed. */
  function ParseAll<T>(row: string -> Option<Parsed<T>>, s: string): Option<seq<T>>
    requires Shrinks(row)
    decreases |s|
  {
    if s == "" then Some([])
    else
      match row(s)
      case None => None
      case Some(first) =>
        match ParseAll(row, first.rest)
        case None => None
        case Some(others) => Some([first.value] + others)
  }

  /** The rows in front of the first malformed one. */
  function ParsePrefix<T>(row: string -> Option<Parsed<T>>, s: string): seq<T>
    requires Shrinks(row)
    decreases |s|
  {
    if s == "" || row(s).None? then [] else [row(s).value.value] + ParsePrefix(row, row(s).value.rest)
  }

  lemma RowStep<T>(row: string -> Option<Parsed<T>>, s: string, x: T, rest: string)
    requires Shrinks(row) && s != "" && row(s) == Some(Parsed(x, rest))
    ensures ParsePrefix(row, s) == [x] + ParsePrefix(row, rest)
    ensures ParseAll(row, s).Some? == ParseAll(row, rest).Some?
  {
  }

  lemma {:induction false} WholeIsPrefix<T>(row: string -> Option<Parsed<T>>, s: string)
    requires Shrinks(row) && ParseAll(row, s).Some?
    ensures ParsePrefix(row, s) == ParseAll(row, s).value
    decreases |s|
  {
    if s != "" {
      WholeIsPrefix(row, row(s).value.rest);
    }
  }

  function Each<T>(f: T -> T, xs: seq<T>): (r: seq<T>)
    ensures |r| == |xs| && forall i :: 0 <= i < |xs| ==> r[i] == f(xs[i])
  {
    seq(|xs|, i requires 0 <= i < |xs| => f(xs[i]))
  }

  /** A fitting row is read back as `back` says if it is `good`, and refused otherwise. */
  ghost predicate ReadsBack<T(!new)>(row: string -> Option<Parsed<T>>, show: T -> string, fits: T -> bool,
                                     good: T -> bool, back: T -> T) {
    forall x, tail | fits(x) ::
      show(x) != "" && row(show(x) + tail) == if good(x) then Some(Parsed(back(x), tail)) else None
  }

  lemma EachFront<T>(f: T -> T, x: T, others: seq<T>)
    ensures Each(f, [x] + others) == [f(x)] + Each(f, others)
  {
  }

  lemma FirstRow<T>(row: string -> Option<Parsed<T>>, first: string, others: string, value: Option<T>)
    requires Shrinks(row) && first != ""
    requires row(first + others) == if value.Some? then Some(Parsed(value.value, others)) else None
    ensures ParseAll(row, first + others)
      == if value.None? || ParseAll(row, others).None? then None else Some([value.value] + ParseAll(row, others).value)
  {
  }

  lemma {:induction false} ListReadsBack<T(!new)>(row: string -> Option<Parsed<T>>, show: T -> string, fits: T -> bool,
                                                  good: T -> bool, back: T -> T, xs: seq<T>)
    requires Shrinks(row) && ReadsBack(row, show, fits, good, back) && forall x :: x in xs ==> fits(x)
    ensures ParseAll(row, Cat(show, xs)) == if forall x :: x in xs ==> good(x) then Some(Each(back, xs)) else None
  {
    if xs != [] {
      var x, others := xs[0], xs[1..];
      assert fits(x) && xs == [x] + others;
      CatFront(show, xs);
      ListReadsBack(row, show, fits, good, back, others);
      EachFront(back, x, others);
      assert (forall y :: y in xs ==> good(y)) <==> good(x) && (forall y :: y in others ==> good(y));
      FirstRow(row, show(x), Cat(show, others), if good(x) then Some(back(x)) else None);
    }
  }

  function ParseOutputs(content: string): Option<seq<Output>> {
    match TakeHeader(content, '2')
    case None => None
    case Some(rows) => ParseAll(TakeOutput, rows)
  }

  function ParseHints(content: string): Option<seq<Hint>> {
    match TakeHeader(content, '3')
    case None => None
    case Some(rows) => ParseAll(TakeHint, rows)
  }

  function ParseObs(content: string): Option<PathSet> {
    match TakeHeader(content, '7')
    case None => None
    case Some(at) =>
      match TakeDigest(at)
      case None => None
      case Some(pinned) =>
        match TakeLit(pinned.rest, '\n')
        case None => None
        case Some(rows) =>
          match ParseAll(TakeObs, rows)
          case None => None
          case Some(obs) => Some(PathSet(pinned.value, obs))
  }

  function TakeHeader(s: string, version: char): Option<string> {
    match TakeLit(s, version)
    case None => None
    case Some(rest) => TakeLit(rest, '\n')
  }

  function PrintOutputs(outputs: seq<Output>): string {
    "2\n" + Cat(PrintOutput, outputs)
  }

  function PrintPathSet(set_: PathSet): string {
    "7\n" + (Hex(set_.pinned) + ("\n" + Cat(PrintObs, set_.rows)))
  }

  function PrintHints(hints: seq<Hint>): string {
    "3\n" + Cat(PrintHint, hints)
  }

  /** The writer refuses a set with a line break in a path. */
  predicate Writable(set_: PathSet) {
    forall o :: o in set_.rows ==> '\n' !in o.path.sub
  }

  /** Hints whose path holds a line break are left out of the file. */
  function Kept(hints: seq<Hint>): seq<Hint> {
    if hints == [] then []
    else
      var rest := Kept(hints[..|hints| - 1]);
      if '\n' in hints[|hints| - 1].path.sub then rest else rest + [hints[|hints| - 1]]
  }

  lemma HeaderReadsBack(version: char, tail: string)
    ensures TakeHeader([version, '\n'] + tail, version) == Some(tail)
  {
    var s := [version, '\n'] + tail;
    assert s[1..] == "\n" + tail;
    Split("\n", tail);
  }

  /** Output lists with arbitrary names survive the trip. */
  lemma OutputsRoundTrip(outputs: seq<Output>)
    requires forall o :: o in outputs ==> OutputFits(o)
    ensures ParseOutputs(PrintOutputs(outputs)) == Some(outputs)
  {
    HeaderReadsBack('2', Cat(PrintOutput, outputs));
    var row, show, fits := TakeOutput, PrintOutput, OutputFits;
    var always, same := (o: Output) => true, (o: Output) => o;
    forall o, tail | fits(o)
      ensures show(o) != "" && row(show(o) + tail) == if always(o) then Some(Parsed(same(o), tail)) else None
    {
      OutputReadsBack(o, tail);
    }
    assert forall o | o in outputs :: fits(o);
    assert ReadsBack(row, show, fits, always, same);
    ListReadsBack(row, show, fits, always, same, outputs);
    assert Each(same, outputs) == outputs;
  }

  lemma ObsRowsReadBack(rows: seq<Obs>)
    requires forall o :: o in rows ==> ObsFits(o)
    ensures ParseAll(TakeObs, Cat(PrintObs, rows))
         == if forall o :: o in rows ==> Readable(o.path) then Some(Each(ObsBack, rows)) else None
  {
    var row, show, fits, back, good := TakeObs, PrintObs, ObsFits, ObsBack, (o: Obs) => Readable(o.path);
    forall o, tail | fits(o)
      ensures show(o) != "" && row(show(o) + tail) == if good(o) then Some(Parsed(back(o), tail)) else None
    {
      ObsReadsBack(o, tail);
    }
    assert forall o | o in rows :: fits(o);
    assert Shrinks(row);
    assert ReadsBack(row, show, fits, good, back);
    ListReadsBack(row, show, fits, good, back, rows);
    assert (forall o :: o in rows ==> good(o)) <==> (forall o :: o in rows ==> Readable(o.path));
  }

  /** A row that comes back as it was: readable, and without a filter unless it is an enumeration. */
  predicate Faithful(o: Obs) {
    Readable(o.path) && (o.kind.ObsEnumeration? || o.filter == "")
  }

  /** A written observation set survives the trip exactly when all its rows do. */
  lemma ObsRoundTrip(set_: PathSet)
    requires forall o :: o in set_.rows ==> ObsFits(o)
    ensures ParseObs(PrintPathSet(set_)) == Some(set_) <==> forall o :: o in set_.rows ==> Faithful(o)
  {
    var rows := Cat(PrintObs, set_.rows);
    HeaderReadsBack('7', Hex(set_.pinned) + ("\n" + rows));
    DigestReadsBack(set_.pinned, "\n" + rows);
    Split("\n", rows);
    ObsRowsReadBack(set_.rows);
    EachIsSame(ObsBack, set_.rows);
  }

  lemma EachIsSame<T>(f: T -> T, xs: seq<T>)
    ensures Each(f, xs) == xs <==> forall x :: x in xs ==> f(x) == x
  {
    if Each(f, xs) == xs {
      forall x | x in xs ensures f(x) == x {
        var i :| 0 <= i < |xs| && xs[i] == x;
        assert Each(f, xs)[i] == x;
      }
    }
    if forall x :: x in xs ==> f(x) == x {
      assert forall i | 0 <= i < |xs| :: xs[i] in xs;
    }
  }

  lemma {:induction false} KeptMeans(hints: seq<Hint>, h: Hint)
    ensures h in Kept(hints) <==> h in hints && '\n' !in h.path.sub
  {
    if hints != [] {
      KeptMeans(hints[..|hints| - 1], h);
      assert hints == hints[..|hints| - 1] + [hints[|hints| - 1]];
    }
  }

  /** What the types of the source guarantee of a hint, whatever its path holds. */
  predicate HintTyped(h: Hint) {
    HintFits(h.(path := h.path.(sub := "")))
  }

  lemma HintRowsReadBack(rows: seq<Hint>)
    requires forall h :: h in rows ==> HintFits(h)
    ensures ParseAll(TakeHint, Cat(PrintHint, rows))
         == if forall h :: h in rows ==> Readable(h.path) then Some(Each(HintBack, rows)) else None
  {
    var row, show, fits, back, good := TakeHint, PrintHint, HintFits, HintBack, (h: Hint) => Readable(h.path);
    forall h, tail | fits(h)
      ensures show(h) != "" && row(show(h) + tail) == if good(h) then Some(Parsed(back(h), tail)) else None
    {
      HintReadsBack(h, tail);
    }
    assert forall h | h in rows :: fits(h);
    assert Shrinks(row);
    assert ReadsBack(row, show, fits, good, back);
    ListReadsBack(row, show, fits, good, back, rows);
    assert (forall h :: h in rows ==> good(h)) <==> (forall h :: h in rows ==> Readable(h.path));
  }

  /** Flushed hints come back without their devices; those with a line break in the path are gone. */
  lemma HintsRoundTrip(hints: seq<Hint>)
    requires forall h :: h in hints ==> HintTyped(h)
    ensures ParseHints(PrintHints(Kept(hints)))
         == if forall h :: h in Kept(hints) ==> Readable(h.path) then Some(Each(HintBack, Kept(hints))) else None
  {
    var kept := Kept(hints);
    HeaderReadsBack('3', Cat(PrintHint, kept));
    forall h | h in kept ensures HintFits(h) {
      KeptMeans(hints, h);
    }
    HintRowsReadBack(kept);
  }

  /** Of a list of rows with something else behind them, the rows are kept, and the whole is refused. */
  lemma {:induction false} RowsInFront<T(!new)>(row: string -> Option<Parsed<T>>, show: T -> string, fits: T -> bool,
                                                good: T -> bool, back: T -> T, xs: seq<T>, bad: string)
    requires Shrinks(row) && ReadsBack(row, show, fits, good, back) && forall x :: x in xs ==> fits(x) && good(x)
    requires bad != "" && row(bad).None?
    ensures ParsePrefix(row, Cat(show, xs) + bad) == Each(back, xs) && ParseAll(row, Cat(show, xs) + bad).None?
  {
    if xs == [] {
      assert "" + bad == bad;
    } else {
      hide Cat, Each;
      var x, others := xs[0], xs[1..];
      var tail := Cat(show, others) + bad;
      assert x in xs && xs == [x] + others;
      CatFront(show, xs);
      Assoc(show(x), Cat(show, others), bad);
      RowsInFront(row, show, fits, good, back, others, bad);
      EachFront(back, x, others);
      RowAt(row, show, fits, good, back, x, tail);
      RowStep(row, show(x) + tail, back(x), tail);
    }
  }

  lemma RowAt<T(!new)>(row: string -> Option<Parsed<T>>, show: T -> string, fits: T -> bool, good: T -> bool,
                       back: T -> T, x: T, tail: string)
    requires ReadsBack(row, show, fits, good, back) && fits(x) && good(x)
    ensures show(x) + tail != "" && row(show(x) + tail) == Some(Parsed(back(x), tail))
  {
  }

  /** Hints in front of the first malformed row are kept. */
  lemma HintsInFront(hints: seq<Hint>, bad: string)
    requires (forall h :: h in hints ==> HintFits(h) && Readable(h.path)) && bad != "" && TakeHint(bad).None?
    ensures ParsePrefix(TakeHint, Cat(PrintHint, hints) + bad) == Each(HintBack, hints)
    ensures ParseAll(TakeHint, Cat(PrintHint, hints) + bad).None?
  {
    var row, show, back := TakeHint, PrintHint, HintBack;
    var fits, good := (h: Hint) => HintFits(h), (h: Hint) => Readable(h.path);
    forall h, tail | fits(h)
      ensures show(h) != "" && row(show(h) + tail) == if good(h) then Some(Parsed(back(h), tail)) else None
    {
      HintReadsBack(h, tail);
    }
    assert forall h | h in hints :: fits(h) && good(h);
    assert Shrinks(row);
    assert ReadsBack(row, show, fits, good, back);
    RowsInFront(row, show, fits, good, back, hints, bad);
  }

  // ---------------------------------------------------------------- the printers

  class Writer {
    var out: string

    constructor ()
      ensures out == ""
    {
      out := "";
    }

    method WriteBytes(data: string)
      modifies this
      ensures out == old(out) + data
    {
      out := out + data;
    }

    method WriteRowStr(s: string)
      modifies this
      ensures out == old(out) + PrintStr(s)
    {
      WriteBytes(PrintU64(|s|));
      WriteBytes(":");
      WriteBytes(s);
    }

    method WriteOutputRow(o: Output)
      modifies this
      ensures out == old(out) + PrintOutput(o)
    {
      WriteBytes(Hex(o.digest));
      WriteBytes(" ");
      WriteRowStr(o.name);
      WriteBytes("\n");
    }

    lemma Nested(was: string, a: string, b: string, c: string, d: string, e: string, f: string)
      ensures (((((was + a) + b) + c) + d) + e) + f == was + (a + (b + (c + (d + (e + f)))))
    {
      Assoc(was + a + b + c + d, e, f);
      Assoc(was + a + b + c, d, e + f);
      Assoc(was + a + b, c, d + (e + f));
      Assoc(was + a, b, c + (d + (e + f)));
      Assoc(was, a, b + (c + (d + (e + f))));
    }

    /** `write_obs_row`: nothing is written of a row with a line break in its path. */
    method WriteObsRow(o: Obs) returns (ok: bool)
      modifies this
      ensures ok <==> '\n' !in o.path.sub
      ensures out == if ok then old(out) + PrintObs(o) else old(out)
    {
      if '\n' in o.path.sub {
        return false;
      }
      hide PrintU64, PrintStr, KindChar;
      ghost var was := out;
      WriteBytes([KindChar(o.kind)]);
      WriteBytes(" ");
      WriteBytes(PrintU64(o.path.root));
      WriteBytes(" ");
      ghost var front, filter := out, if o.kind.ObsEnumeration? then PrintStr(o.filter) + " " else "";
      Assoc(front, PrintStr(o.filter), " ");
      if o.kind.ObsEnumeration? {
        WriteRowStr(o.filter);
        WriteBytes(" ");
      }
      Assoc(front + filter, o.path.sub, "\n");
      WriteBytes(o.path.sub);
      WriteBytes("\n");
      Nested(was, [KindChar(o.kind)], " ", PrintU64(o.path.root), " ", filter, o.path.sub + "\n");
      return true;
    }

    /** `write_outputs`. */
    method WriteOutputs(outputs: seq<Output>)
      modifies this
      ensures out == old(out) + PrintOutputs(outputs)
    {
      WriteBytes("2\n");
      ghost var was := out;
      Assoc(was, "", "");
      for it := 0 to |outputs|
        invariant out == was + Cat(PrintOutput, outputs[..it])
      {
        CatNext(PrintOutput, outputs, it);
        Assoc(was, Cat(PrintOutput, outputs[..it]), PrintOutput(outputs[it]));
        WriteOutputRow(outputs[it]);
      }
      assert outputs[..|outputs|] == outputs;
      Assoc(old(out), "2\n", Cat(PrintOutput, outputs));
    }

    method WriteObsRows(rows: seq<Obs>) returns (ok: bool)
      modifies this
      ensures ok <==> forall o :: o in rows ==> '\n' !in o.path.sub
      ensures ok ==> out == old(out) + Cat(PrintObs, rows)
    {
      Assoc(out, "", "");
      for it := 0 to |rows|
        invariant forall o :: o in rows[..it] ==> '\n' !in o.path.sub
        invariant out == old(out) + Cat(PrintObs, rows[..it])
      {
        CatNext(PrintObs, rows, it);
        Assoc(old(out), Cat(PrintObs, rows[..it]), PrintObs(rows[it]));
        ok := WriteObsRow(rows[it]);
        if !ok {
          return;
        }
      }
      assert rows[..|rows|] == rows;
      return true;
    }

    /** `write_obs`. */
    method WriteObs(set_: PathSet) returns (ok: bool)
      modifies this
      ensures ok <==> Writable(set_)
      ensures ok ==> out == old(out) + PrintPathSet(set_)
    {
      WriteBytes("7\n");
      WriteBytes(Hex(set_.pinned));
      WriteBytes("\n");
      ok := WriteObsRows(set_.rows);
      PathSetText(old(out), set_);
    }

    /** `spn_dag_file_cache_flush`, over the hints in the order the table yields them. */
    method WriteHints(hints: seq<Hint>)
      modifies this
      ensures out == old(out) + PrintHints(Kept(hints))
    {
      WriteBytes("3\n");
      ghost var was := out;
      Assoc(was, "", "");
      for it := 0 to |hints|
        invariant out == was + Cat(PrintHint, Kept(hints[..it]))
      {
        KeptNext(hints, it);
        Assoc(was, Cat(PrintHint, Kept(hints[..it])), PrintHint(hints[it]));
        if '\n' !in hints[it].path.sub {
          WriteBytes(PrintHint(hints[it]));
        }
      }
      assert hints[..|hints|] == hints;
      Assoc(old(out), "3\n", Cat(PrintHint, Kept(hints)));
    }
  }

  lemma PathSetText(was: string, set_: PathSet)
    ensures was + "7\n" + Hex(set_.pinned) + "\n" + Cat(PrintObs, set_.rows) == was + PrintPathSet(set_)
  {
    var rows := Cat(PrintObs, set_.rows);
    Assoc(was + "7\n" + Hex(set_.pinned), "\n", rows);
    Assoc(was + "7\n", Hex(set_.pinned), "\n" + rows);
    Assoc(was, "7\n", Hex(set_.pinned) + ("\n" + rows));
  }

  lemma KeptNext(hints: seq<Hint>, k: nat)
    requires k < |hints|
    ensures Cat(PrintHint, Kept(hints[..k + 1]))
      == if '\n' in hints[k].path.sub then Cat(PrintHint, Kept(hints[..k]))
         else Cat(PrintHint, Kept(hints[..k])) + PrintHint(hints[k])
  {
    assert hints[..k + 1][..k] == hints[..k];
    var rest := Kept(hints[..k]);
    assert (rest + [hints[k]])[..|rest|] == rest;
  }

  // ---------------------------------------------------------------- the parsers

  lemma DigitsEnd(s: string, k: nat)
    requires k <= |s| && (forall i :: 0 <= i < k ==> IsDigit(s[i])) && (k < |s| ==> !IsDigit(s[k]))
    ensures LeadingDigits(s) == k
  {
  }

  lemma LineEnds(s: string, k: nat)
    requires k <= |s| && (forall i :: 0 <= i < k ==> s[i] != '\n') && (k < |s| ==> s[k] == '\n')
    ensures LineEnd(s) == k
  {
  }

  /** The text still to be read. A method that fails may leave it anywhere behind where it was. */
  class Cursor {
    var rest: string

    constructor (content: string)
      ensures rest == content
    {
      rest := content;
    }

    method RowLit(c: char) returns (ok: bool)
      modifies this
      ensures ok <==> TakeLit(old(rest), c).Some?
      ensures rest == if ok then TakeLit(old(rest), c).value else old(rest)
    {
      if rest == "" || rest[0] != c {
        return false;
      }
      rest := rest[1..];
      return true;
    }

    method RowU64() returns (ok: bool, value: nat)
      modifies this
      ensures ok <==> TakeU64(old(rest)).Some?
      ensures ok ==> TakeU64(old(rest)) == Some(Parsed(value, rest))
    {
      value := 0;
      var digits := 0;
      while rest != "" && IsDigit(rest[0])
        invariant digits <= |old(rest)| && rest == old(rest)[digits..]
        invariant forall i :: 0 <= i < digits ==> IsDigit(old(rest)[i])
        invariant value == Decimal64(old(rest)[..digits])
        decreases |rest|
      {
        assert old(rest)[..digits + 1][..digits] == old(rest)[..digits];
        value := (value * 10 + DigitValue(rest[0])) % TWO_64;
        rest := rest[1..];
        digits := digits + 1;
      }
      DigitsEnd(old(rest), digits);
      ok := digits != 0;
    }

    method RowS64() returns (ok: bool, value: int)
      modifies this
      ensures ok <==> TakeS64(old(rest)).Some?
      ensures ok ==> TakeS64(old(rest)) == Some(Parsed(value, rest))
    {
      var negative := rest != "" && rest[0] == '-';
      if negative {
        rest := rest[1..];
      }
      var bits: nat;
      ok, bits := RowU64();
      value := 0;
      if ok {
        value := if negative then Negated(Signed(bits)) else Signed(bits);
      }
    }

    method RowBytes(len: nat) returns (ok: bool, data: string)
      modifies this
      ensures ok <==> TakeBytes(old(rest), len).Some?
      ensures ok ==> TakeBytes(old(rest), len) == Some(Parsed(data, rest))
    {
      if |rest| < len {
        return false, "";
      }
      data := rest[..len];
      rest := rest[len..];
      return true, data;
    }

    method RowStr() returns (ok: bool, s: string)
      modifies this
      ensures ok <==> TakeStr(old(rest)).Some?
      ensures ok ==> TakeStr(old(rest)) == Some(Parsed(s, rest))
    {
      s := "";
      var len: nat;
      ok, len := RowU64();
      if !ok { return; }
      ok := RowLit(':');
      if !ok { return; }
      ok, s := RowBytes(len);
    }

    method RowDigest() returns (ok: bool, digest: Digest)
      modifies this
      ensures ok <==> TakeDigest(old(rest)).Some?
      ensures ok ==> TakeDigest(old(rest)) == Some(Parsed(digest, rest))
    {
      digest := seq(32, i => 0);
      var hex: string;
      ok, hex := RowBytes(64);
      if ok {
        ok, digest := DigestParse(hex);
      }
    }

    method RowLine() returns (ok: bool, line: string)
      modifies this
      ensures ok <==> TakeLine(old(rest)).Some?
      ensures ok ==> TakeLine(old(rest)) == Some(Parsed(line, rest))
    {
      var len := 0;
      while len < |rest| && rest[len] != '\n'
        invariant len <= |rest| && forall i :: 0 <= i < len ==> rest[i] != '\n'
      {
        len := len + 1;
      }
      LineEnds(rest, len);
      ok, line := RowBytes(len);
      if ok {
        ok := RowLit('\n');
      }
    }

    method RowHeader(version: char) returns (ok: bool)
      modifies this
      ensures ok <==> TakeHeader(old(rest), version).Some?
      ensures ok ==> TakeHeader(old(rest), version) == Some(rest)
    {
      ok := RowLit(version);
      if ok {
        ok := RowLit('\n');
      }
    }

    method ParseOutputRow() returns (ok: bool, o: Output)
      modifies this
      ensures ok <==> TakeOutput(old(rest)).Some?
      ensures ok ==> TakeOutput(old(rest)) == Some(Parsed(o, rest))
    {
      var digest: Digest, name: string := seq(32, i => 0), "";
      o := Output(digest, name);
      ok, digest := RowDigest();
      if !ok { return; }
      ok := RowLit(' ');
      if !ok { return; }
      ok, name := RowStr();
      if !ok { return; }
      ok := RowLit('\n');
      o := Output(digest, name);
    }

    method RowRoot() returns (ok: bool, root: nat)
      modifies this
      ensures ok <==> TakeRoot(old(rest)).Some?
      ensures ok ==> TakeRoot(old(rest)) == Some(Parsed(root, rest))
    {
      ok, root := RowU64();
      if !ok || root >= ROOT_COUNT { return false, 0; }
      ok := RowLit(' ');
    }

    method RowPath(root: nat) returns (ok: bool, path: Path)
      modifies this
      ensures ok <==> TakeSub(root, old(rest)).Some?
      ensures ok ==> TakeSub(root, old(rest)) == Some(Parsed(path, rest))
    {
      var sub: string;
      ok, sub := RowLine();
      path := Path(root, sub);
      if ok && root == NONE && !Absolute(sub) {
        ok := false;
      }
    }

    method RowFilter(kind: ObsKind) returns (ok: bool, filter: string)
      modifies this
      ensures ok <==> TakeFilter(kind, old(rest)).Some?
      ensures ok ==> TakeFilter(kind, old(rest)) == Some(Parsed(filter, rest))
    {
      ok, filter := true, "";
      if kind.ObsEnumeration? {
        ok, filter := RowStr();
        if !ok { return; }
        ok := RowLit(' ');
      }
    }

    method ParseObsRow() returns (ok: bool, o: Obs)
      modifies this
      ensures ok <==> TakeObs(old(rest)).Some?
      ensures ok ==> TakeObs(old(rest)) == Some(Parsed(o, rest))
    {
      o := Obs(ObsFile, Path(NONE, ""), "");
      var first: string, root: nat, filter: string, path: Path;
      ok, first := RowBytes(1);
      if !ok || KindOf(first[0]).None? { return false, o; }
      var kind := KindOf(first[0]).value;
      ok := RowLit(' ');
      if !ok { return; }
      ok, root := RowRoot();
      if !ok { return; }
      ok, filter := RowFilter(kind);
      if !ok { return; }
      ok, path := RowPath(root);
      o := Obs(kind, path, filter);
    }

    method RowS64Blank() returns (ok: bool, value: int)
      modifies this
      ensures ok <==> TakeS64Blank(old(rest)).Some?
      ensures ok ==> TakeS64Blank(old(rest)) == Some(Parsed(value, rest))
    {
      ok, value := RowS64();
      if ok {
        ok := RowLit(' ');
      }
    }

    method RowU64Blank() returns (ok: bool, value: nat)
      modifies this
      ensures ok <==> TakeU64Blank(old(rest)).Some?
      ensures ok ==> TakeU64Blank(old(rest)) == Some(Parsed(value, rest))
    {
      ok, value := RowU64();
      if ok {
        ok := RowLit(' ');
      }
    }

    method RowDigestBlank() returns (ok: bool, digest: Digest)
      modifies this
      ensures ok <==> TakeDigestBlank(old(rest)).Some?
      ensures ok ==> TakeDigestBlank(old(rest)) == Some(Parsed(digest, rest))
    {
      ok, digest := RowDigest();
      if ok {
        ok := RowLit(' ');
      }
    }

    method ParseHintRow() returns (ok: bool, h: Hint)
      modifies this
      ensures ok <==> TakeHint(old(rest)).Some?
      ensures ok ==> TakeHint(old(rest)) == Some(Parsed(h, rest))
    {
      var digest: Digest := seq(32, i => 0);
      h := Hint(Path(NONE, ""), Meta(0, 0, 0, 0, 0, digest));
      var inode: nat, root: nat, seconds: int, nanoseconds: int, size: int, path: Path;
      ok, inode := RowU64Blank();
      if !ok { return; }
      ok, seconds := RowS64Blank();
      if !ok { return; }
      ok, nanoseconds := RowS64Blank();
      if !ok { return; }
      ok, size := RowS64Blank();
      if !ok { return; }
      ok, digest := RowDigestBlank();
      if !ok { return; }
      ok, root := RowRoot();
      if !ok { return; }
      ok, path := RowPath(root);
      h := Hint(path, Meta(0, inode, seconds, nanoseconds, size, digest));
    }

    method OutputRows() returns (ok: bool, outputs: seq<Output>)
      modifies this
      ensures ok <==> ParseAll(TakeOutput, old(rest)).Some?
      ensures ok ==> ParseAll(TakeOutput, old(rest)) == Some(outputs)
    {
      ok, outputs := true, [];
      BeforeNone(ParseAll(TakeOutput, rest));
      while rest != ""
        invariant ParseAll(TakeOutput, old(rest)) == Before(outputs, ParseAll(TakeOutput, rest))
        decreases |rest|
      {
        var o: Output;
        ok, o := ParseOutputRow();
        if !ok { return; }
        BeforeNext(outputs, o, ParseAll(TakeOutput, rest));
        outputs := outputs + [o];
      }
      assert outputs + [] == outputs;
    }

    method ObsRows() returns (ok: bool, rows: seq<Obs>)
      modifies this
      ensures ok <==> ParseAll(TakeObs, old(rest)).Some?
      ensures ok ==> ParseAll(TakeObs, old(rest)) == Some(rows)
    {
      ok, rows := true, [];
      BeforeNone(ParseAll(TakeObs, rest));
      while rest != ""
        invariant ParseAll(TakeObs, old(rest)) == Before(rows, ParseAll(TakeObs, rest))
        decreases |rest|
      {
        var o: Obs;
        ok, o := ParseObsRow();
        if !ok { return; }
        BeforeNext(rows, o, ParseAll(TakeObs, rest));
        rows := rows + [o];
      }
      assert rows + [] == rows;
    }

    /** Reads rows until the text runs out or one is malformed; what was read stays. */
    method HintRows() returns (ok: bool, hints: seq<Hint>)
      modifies this
      ensures ok <==> ParseAll(TakeHint, old(rest)).Some?
      ensures hints == ParsePrefix(TakeHint, old(rest))
    {
      ok, hints := true, [];
      JoinRows([], [], ParsePrefix(TakeHint, rest));
      while rest != ""
        invariant ParseAll(TakeHint, old(rest)).Some? == ParseAll(TakeHint, rest).Some?
        invariant ParsePrefix(TakeHint, old(rest)) == hints + ParsePrefix(TakeHint, rest)
        decreases |rest|
      {
        ghost var was := rest;
        var h: Hint;
        ok, h := ParseHintRow();
        JoinRows(hints, [], []);
        if !ok {
          return;
        }
        RowStep(TakeHint, was, h, rest);
        JoinRows(hints, [h], ParsePrefix(TakeHint, rest));
        hints := hints + [h];
      }
      JoinRows(hints, [], []);
    }
  }

  lemma JoinRows<T>(a: seq<T>, b: seq<T>, c: seq<T>)
    ensures (a + b) + c == a + (b + c) && a + [] == a && [] + c == c
  {
  }

  /** Rows already read, in front of what the rest gives. */
  function Before<T>(read: seq<T>, others: Option<seq<T>>): Option<seq<T>> {
    if others.None? then None else Some(read + others.value)
  }

  lemma BeforeNone<T>(others: Option<seq<T>>)
    ensures Before([], others) == others
  {
    if others.Some? {
      assert [] + others.value == others.value;
    }
  }

  lemma BeforeNext<T>(read: seq<T>, next: T, others: Option<seq<T>>)
    ensures Before(read + [next], others) == Before(read, if others.None? then None else Some([next] + others.value))
  {
    if others.Some? {
      assert (read + [next]) + others.value == read + ([next] + others.value);
    }
  }

  /** `spn_dag_digest_parse`. */
  method DigestParse(hex: string) returns (ok: bool, digest: Digest)
    requires |hex| == 64
    ensures ok <==> Unhex(hex).Some?
    ensures ok ==> Unhex(hex) == Some(digest)
  {
    digest := seq(32, i => 0);
    var bytes: seq<Byte> := [];
    while |bytes| < 32
      invariant |bytes| <= 32 && Unhex(hex[..2 * |bytes|]) == Some(bytes)
    {
      var it := 2 * |bytes|;
      UnhexStep(hex, it);
      var high, low := NibbleOf(hex[it]), NibbleOf(hex[it + 1]);
      if high.None? || low.None? {
        UnhexFails(hex, it + 2);
        return false, digest;
      }
      bytes := bytes + [high.value * 16 + low.value];
    }
    assert hex[..64] == hex;
    return true, bytes;
  }

  lemma UnhexStep(hex: string, at: nat)
    requires at % 2 == 0 && at + 2 <= |hex|
    ensures Unhex(hex[..at + 2]) == (
      var high, low, front := NibbleOf(hex[at]), NibbleOf(hex[at + 1]), Unhex(hex[..at]);
      if front.None? || high.None? || low.None? then None else Some(front.value + [high.value * 16 + low.value]))
  {
    assert hex[..at + 2][..at] == hex[..at];
  }

  /** A malformed start cannot be mended. */
  lemma {:induction false} UnhexFails(hex: string, at: nat)
    requires at % 2 == 0 && |hex| % 2 == 0 && at <= |hex| && Unhex(hex[..at]).None?
    ensures Unhex(hex).None?
    decreases |hex| - at
  {
    if at == |hex| {
      assert hex[..at] == hex;
    } else {
      UnhexStep(hex, at);
      UnhexFails(hex, at + 2);
    }
  }

  // ---------------------------------------------------------------- loading and saving

  /** `parse_outputs`. */
  method LoadOutputs(content: string) returns (outputs: Option<seq<Output>>)
    ensures outputs == ParseOutputs(content)
  {
    var cursor := new Cursor(content);
    var ok := cursor.RowHeader('2');
    if !ok { return None; }
    var rows: seq<Output>;
    ok, rows := cursor.OutputRows();
    return if ok then Some(rows) else None;
  }

  /** `parse_obs`. */
  method LoadObs(content: string) returns (set_: Option<PathSet>)
    ensures set_ == ParseObs(content)
  {
    var cursor := new Cursor(content);
    var ok := cursor.RowHeader('7');
    if !ok { return None; }
    var pinned: Digest;
    ok, pinned := cursor.RowDigest();
    if !ok { return None; }
    ok := cursor.RowLit('\n');
    if !ok { return None; }
    var rows: seq<Obs>;
    ok, rows := cursor.ObsRows();
    return if ok then Some(PathSet(pinned, rows)) else None;
  }

  /** `spn_dag_file_cache_load`: a malformed file is thrown away, but the hints in front of its first
      malformed row are kept. */
  method LoadHints(content: string) returns (keep: bool, hints: seq<Hint>)
    ensures keep <==> ParseHints(content).Some?
    ensures keep ==> ParseHints(content) == Some(hints)
    ensures hints
      == if TakeHeader(content, '3').Some? then ParsePrefix(TakeHint, TakeHeader(content, '3').value) else []
  {
    var cursor := new Cursor(content);
    keep := cursor.RowHeader('3');
    if !keep { return false, []; }
    ghost var rows := cursor.rest;
    keep, hints := cursor.HintRows();
    if keep {
      WholeIsPrefix(TakeHint, rows);
    }
  }

  /** An output list that is saved and loaded again is the same list. */
  method SaveAndLoad(outputs: seq<Output>) returns (loaded: Option<seq<Output>>)
    requires forall o :: o in outputs ==> OutputFits(o)
    ensures loaded == Some(outputs)
  {
    var sink := new Writer();
    sink.WriteOutputs(outputs);
    assert "" + PrintOutputs(outputs) == PrintOutputs(outputs);
    OutputsRoundTrip(outputs);
    loaded := LoadOutputs(sink.out);
  }

  // ---------------------------------------------------------------- rows, spelt out

  /** What a file row, a row of absence and an enumeration row look like. */
  lemma ObsSamples(sub: string, filter: string)
    requires |filter| == 3
    ensures PrintObs(Obs(ObsFile, Path(3, sub), filter)) == "f" + (" " + ("3" + (" " + ("" + (sub + "\n")))))
    ensures PrintObs(Obs(ObsAbsent, Path(0, sub), filter)) == "a" + (" " + ("0" + (" " + ("" + (sub + "\n")))))
    ensures PrintObs(Obs(ObsEnumeration, Path(4, sub), filter))
         == "e" + (" " + ("4" + (" " + ((("3" + (":" + filter)) + " ") + (sub + "\n")))))
  {
    assert PrintU64(3) == "3" && PrintU64(0) == "0" && PrintU64(4) == "4";
  }

  /** What the files look like without rows. */
  lemma HeaderSamples(pinned: Digest)
    ensures PrintOutputs([]) == "2\n" && PrintHints([]) == "3\n"
    ensures PrintPathSet(PathSet(pinned, [])) == "7\n" + (Hex(pinned) + "\n")
    ensures ParseOutputs("2\n") == Some([]) && ParseHints("3\n") == Some([])
  {
    assert "2\n" + "" == "2\n" && "3\n" + "" == "3\n" && "\n" + "" == "\n";
    HeaderReadsBack('2', "");
    HeaderReadsBack('3', "");
  }

  /** What a hint row looks like. */
  lemma HintSample(digest: Digest, sub: string)
    ensures PrintHint(Hint(Path(3, sub), Meta(9, 12, -5, 0, 7, digest)))
         == "12" + (" " + (("-" + "5") + (" " + ("0" + (" " + ("7"
            + (" " + (Hex(digest) + (" " + ("3" + (" " + (sub + "\n"))))))))))))
  {
    assert PrintU64(12) == "12" && PrintU64(5) == "5" && PrintU64(0) == "0" && PrintU64(7) == "7" && PrintU64(3) == "3";
  }

  /** A row of another kind, of a root that does not exist, or without its blanks is no row. */
  lemma RefusedRows(rest: string)
    ensures forall c: char :: c != 'f' && c != 'a' && c != 'e' ==> TakeObs([c] + rest).None?
    ensures forall n: nat, tail: string :: n < TWO_64 ==> (TakeRoot(PrintU64(n) + (" " + tail)).None? <==> n >= 10)
    ensures TakeObs("f3 " + rest).None?
  {
    forall n: nat, tail: string | n < TWO_64 ensures TakeRoot(PrintU64(n) + (" " + tail)).None? <==> n >= 10 {
      U64ReadsBack(n, " " + tail);
    }
    assert ("f3 " + rest)[0] == 'f' && ("f3 " + rest)[1..][0] == '3';
  }
}
