/** The decoder of Make dependency files (source/core/compiler/occ.c:85-219), against the way GCC
    writes them. A character 0 stands for the end of the text, as in the source. */
module Depfile {
  import opened Bytes
  import opened Paths

  const NUL := 0 as char

  predicate IsSep(c: char) {
    c == '/' || c == '\\'
  }

  predicate IsEol(c: char) {
    c == '\r' || c == '\n'
  }

  predicate IsHspace(c: char) {
    c == ' ' || c == '\t'
  }

  predicate IsWhite(c: char) {
    IsHspace(c) || IsEol(c)
  }

  /** The character at `ahead`, or 0 behind the end. */
  function Look(s: string, ahead: nat): char {
    if ahead < |s| then s[ahead] else NUL
  }

  // ---------------------------------------------------------------- what the decoder does

  function DropHspace(s: string): (r: string)
    ensures |r| <= |s| && (r != "" ==> !IsHspace(r[0]))
  {
    if s != "" && IsHspace(s[0]) then DropHspace(s[1..]) else s
  }

  function DropWhite(s: string): (r: string)
    ensures |r| <= |s| && (r != "" ==> !IsWhite(r[0]))
  {
    if s != "" && IsWhite(s[0]) then DropWhite(s[1..]) else s
  }

  /** What stands behind the colon that ends a target: one that no path separator follows. */
  function DropTarget(s: string): (r: Option<string>)
    ensures r.Some? ==> |r.value| < |s|
  {
    if s == "" || IsEol(s[0]) then None
    else if s[0] == ':' && !IsSep(Look(s, 1)) then Some(s[1..])
    else DropTarget(s[1..])
  }

  datatype Err = MissingColon | BadContinuation | UnterminatedQuote | TooLong

  datatype Sought = At(rest: string) | Over | Bad(err: Err)

  /** The next prerequisite starts here. */
  predicate Starts(s: string) {
    s != "" && !IsWhite(s[0]) && s[0] != NUL && (s[0] == '\\' ==> Look(s, 1) != NUL && !IsEol(s[1]))
  }

  /** `occ_seek`: past blanks, continuations and the targets of further rules. */
  function Seek(s: string): (r: Sought)
    ensures r.At? ==> |r.rest| <= |s| && Starts(r.rest)
    decreases |s|
  {
    var t := DropHspace(s);
    if Look(t, 0) == NUL then Over
    else if IsEol(t[0]) then
      var u := DropWhite(t);
      if Look(u, 0) == NUL then Over
      else
        match DropTarget(u)
        case None => Bad(MissingColon)
        case Some(v) => Seek(v)
    else if t[0] != '\\' then At(t)
    else if Look(t, 1) == NUL then Over
    else if t[1] == '\n' then Seek(t[2..])
    else if t[1] == '\r' && Look(t, 2) == '\n' then Seek(t[3..])
    else if t[1] == '\r' then Bad(BadContinuation)
    else At(t)
  }

  /** A name and the text behind it. */
  datatype Taken = Taken(name: string, rest: string)

  function Before(s: string, t: Taken): Taken {
    t.(name := s + t.name)
  }

  /** What is read next of an unquoted name: `used` characters that stand for `text`. */
  datatype Piece = Piece(used: nat, text: string, last: bool)

  function NextPiece(s: string): (r: Piece)
    requires s != ""
    ensures r.used <= |s| && (!r.last ==> r.used > 0) && (Starts(s) ==> r.used > 0)
  {
    var k := LeadingSlashes(s);
    var next := Look(s, k);
    if k > 0 && next == NUL then Piece(k, Slashes(k - 1), true)
    else if k > 0 && IsEol(next) then Piece(k - 1, Slashes(k - 1), true)
    else if k > 0 && IsHspace(next) then Piece(k + 1, Slashes(k / 2) + [next], false)
    else if k > 0 && next == '#' then Piece(k + 1, Slashes(k - 1) + "#", false)
    else if s[0] == '$' && Look(s, 1) == '$' then Piece(2, "$", false)
    else Piece(1, [s[0]], false)
  }

  /** An unquoted name, with the Make escapes undone. */
  function Word(s: string): (r: Taken)
    ensures |r.rest| <= |s| && (Starts(s) ==> |r.rest| < |s|)
    decreases |s|
  {
    if s == "" || IsWhite(s[0]) then Taken("", s)
    else
      var piece := NextPiece(s);
      if piece.last then Taken(piece.text, s[piece.used..]) else Before(piece.text, Word(s[piece.used..]))
  }

  /** What stands between here and the closing quote, or the end of the line. */
  function Quoted(s: string): (r: Taken)
    ensures |r.rest| <= |s|
  {
    if s == "" || IsEol(s[0]) || s[0] == '"' then Taken("", s) else Before([s[0]], Quoted(s[1..]))
  }

  datatype One = Got(name: string, rest: string) | Failed(err: Err)

  /** `occ_parse_one`. `most` is the longest name allowed. */
  function TakeOne(s: string, most: nat): (r: One)
    requires Starts(s)
    ensures r.Got? ==> |r.rest| < |s|
  {
    if s[0] == '"' then
      var body := Quoted(s[1..]);
      if |body.name| > most then Failed(TooLong)
      else if Look(body.rest, 0) == '"' then Got(body.name, body.rest[1..])
      else Failed(UnterminatedQuote)
    else
      var word := Word(s);
      if |word.name| > most then Failed(TooLong) else Got(word.name, word.rest)
  }

  datatype Decoded = Decoded(names: seq<string>, err: Option<Err>)

  /** All prerequisites from here on. */
  function Decode(s: string, most: nat): Decoded
    decreases |s|
  {
    match Seek(s)
    case Over => Decoded([], None)
    case Bad(err) => Decoded([], Some(err))
    case At(t) =>
      match TakeOne(t, most)
      case Failed(err) => Decoded([], Some(err))
      case Got(name, rest) =>
        var others := Decode(rest, most);
        others.(names := [name] + others.names)
  }

  function DecodeFile(content: string, most: nat): Decoded {
    var u := DropWhite(content);
    if Look(u, 0) == NUL then Decode(u, most)
    else
      match DropTarget(u)
      case None => Decoded([], Some(MissingColon))
      case Some(v) => Decode(v, most)
  }

  // ---------------------------------------------------------------- what GCC writes

  /** A name with its blanks, hashes and dollars escaped; `held` backslashes stand in front of it. */
  function Munge(name: string, held: nat): string
    decreases name
  {
    if name == "" then ""
    else
      var c, rest := name[0], name[1..];
      if c == '\\' then "\\" + Munge(rest, held + 1)
      else if IsHspace(c) then Slashes(held + 1) + ([c] + Munge(rest, 0))
      else if c == '#' then "\\#" + Munge(rest, 0)
      else if c == '$' then "$$" + Munge(rest, 0)
      else [c] + Munge(rest, 0)
  }

  /** The names that can be written: no line ends, no 0, no leading quote, no trailing backslash. */
  predicate Writable(name: string) {
    && name != "" && name[0] != '"' && name[|name| - 1] != '\\'
    && forall i :: 0 <= i < |name| ==> !IsEol(name[i]) && name[i] != NUL
  }

  /** What may stand between names: a blank, a continued line, the target of another rule. */
  datatype Gap = Blank(tab: bool) | Fold(cr: bool) | Rule(white: string, target: string)

  function GapText(g: Gap): string {
    match g
    case Blank(tab) => if tab then "\t" else " "
    case Fold(cr) => if cr then "\\\r\n" else "\\\n"
    case Rule(white, target) => white + (target + ":")
  }

  /** A target on one line whose colons are all followed by a path separator, as in a drive letter. */
  predicate IsTarget(target: string) {
    && (target != "" ==> !IsWhite(target[0]) && target[0] != NUL)
    && (forall i :: 0 <= i < |target| ==> !IsEol(target[i]))
    && (forall i :: 0 <= i < |target| && target[i] == ':' ==> i + 1 < |target| && IsSep(target[i + 1]))
  }

  predicate GapFits(g: Gap, behind: string) {
    g.Rule? ==>
      && g.white != "" && IsEol(g.white[0]) && (forall i :: 0 <= i < |g.white| ==> IsWhite(g.white[i]))
      && IsTarget(g.target) && !IsSep(Look(behind, 0))
  }

  function GapsText(gaps: seq<Gap>, behind: string): string {
    if gaps == [] then behind else GapText(gaps[0]) + GapsText(gaps[1..], behind)
  }

  predicate GapsFit(gaps: seq<Gap>, behind: string) {
    gaps == [] || (GapFits(gaps[0], GapsText(gaps[1..], behind)) && GapsFit(gaps[1..], behind))
  }

  /** A name with the gaps in front of it. */
  datatype Item = Item(gaps: seq<Gap>, name: string)

  /** The items, then trailing gaps, then `end`: nothing, or blank lines. */
  function ItemsText(items: seq<Item>, last: seq<Gap>, end: string): string {
    if items == [] then GapsText(last, end)
    else GapsText(items[0].gaps, Munge(items[0].name, 0) + ItemsText(items[1..], last, end))
  }

  predicate IsEnd(end: string) {
    (end != "" ==> IsEol(end[0])) && forall i :: 0 <= i < |end| ==> IsWhite(end[i])
  }

  /** Only the first name behind a colon may stand without a gap. */
  predicate ItemsFit(items: seq<Item>, last: seq<Gap>, end: string, first: bool) {
    if items == [] then GapsFit(last, end) && IsEnd(end)
    else
      && Writable(items[0].name) && (!first ==> items[0].gaps != [])
      && GapsFit(items[0].gaps, Munge(items[0].name, 0) + ItemsText(items[1..], last, end))
      && ItemsFit(items[1..], last, end, false)
  }

  function NamesOf(items: seq<Item>): (r: seq<string>)
    ensures |r| == |items| && forall i :: 0 <= i < |items| ==> r[i] == items[i].name
  {
    seq(|items|, i requires 0 <= i < |items| => items[i].name)
  }

  // ---------------------------------------------------------------- names read back

  lemma RunOf(n: nat, tail: string)
    requires tail == "" || tail[0] != '\\'
    ensures LeadingSlashes(Slashes(n) + tail) == n && (Slashes(n) + tail)[n..] == tail
    ensures Look(Slashes(n) + tail, n) == Look(tail, 0)
  {
    Split(Slashes(n), tail);
    var s := Slashes(n) + tail;
    assert tail != "" ==> s[n] == tail[0];
  }

  lemma SlashesSum(m: nat, n: nat)
    ensures Slashes(m) + Slashes(n) == Slashes(m + n)
  {
  }

  /** An odd run before a blank is half the run and the blank. */
  lemma BlankReadsBack(held: nat, c: char, tail: string)
    requires IsHspace(c)
    ensures Word(Slashes(held * 2 + 1) + ([c] + tail)) == Before(Slashes(held) + [c], Word(tail))
  {
    var n, s := held * 2 + 1, [c] + tail;
    RunOf(n, s);
    Split([c], tail);
    BlankStep(Slashes(n) + s, n, c);
    assert (Slashes(n) + s)[n + 1..] == (Slashes(n) + s)[n..][1..];
  }

  lemma BlankStep(s: string, k: nat, c: char)
    requires k == LeadingSlashes(s) && k > 0 && Look(s, k) == c && IsHspace(c)
    ensures Word(s) == Before(Slashes(k / 2) + [c], Word(s[k + 1..]))
  {
    PieceOfBlank(s, k, c);
    WordUnfolds(s);
  }

  lemma PieceOfBlank(s: string, k: nat, c: char)
    requires k == LeadingSlashes(s) && k > 0 && Look(s, k) == c && IsHspace(c)
    ensures NextPiece(s) == Piece(k + 1, Slashes(k / 2) + [c], false)
  {
  }

  lemma WordUnfolds(s: string)
    requires s != "" && !IsWhite(s[0])
    ensures var piece := NextPiece(s);
      Word(s) == if piece.last then Taken(piece.text, s[piece.used..]) else Before(piece.text, Word(s[piece.used..]))
  {
  }

  lemma HashReadsBack(held: nat, tail: string)
    ensures Word(Slashes(held + 1) + ("#" + tail)) == Before(Slashes(held) + "#", Word(tail))
  {
    var n, s := held + 1, "#" + tail;
    RunOf(n, s);
    Split("#", tail);
    HashStep(Slashes(n) + s, n);
    assert (Slashes(n) + s)[n + 1..] == (Slashes(n) + s)[n..][1..];
  }

  lemma HashStep(s: string, k: nat)
    requires k == LeadingSlashes(s) && k > 0 && Look(s, k) == '#'
    ensures Word(s) == Before(Slashes(k - 1) + "#", Word(s[k + 1..]))
  {
    PieceOfHash(s, k);
    WordUnfolds(s);
  }

  lemma PieceOfHash(s: string, k: nat)
    requires k == LeadingSlashes(s) && k > 0 && Look(s, k) == '#'
    ensures NextPiece(s) == Piece(k + 1, Slashes(k - 1) + "#", false)
  {
  }

  /** Backslashes before an ordinary character stand for themselves. */
  lemma {:induction false} PlainReadsBack(held: nat, s: string)
    requires s != "" && s[0] != '\\' && s[0] != '#' && !IsWhite(s[0]) && s[0] != NUL
    ensures Word(Slashes(held) + s) == Before(Slashes(held), Word(s))
    decreases held
  {
    if held == 0 {
      assert Slashes(0) + s == s && Slashes(0) + Word(s).name == Word(s).name;
    } else {
      PlainReadsBack(held - 1, s);
      RunOf(held, s);
      SlashesSum(1, held - 1);
      Assoc(Slashes(1), Slashes(held - 1), s);
      Split(Slashes(1), Slashes(held - 1) + s);
      PlainStep(Slashes(held) + s);
      Assoc(Slashes(1), Slashes(held - 1), Word(s).name);
      assert Slashes(1) == "\\";
    }
  }

  lemma PlainStep(s: string)
    requires LeadingSlashes(s) > 0 && var c := Look(s, LeadingSlashes(s)); c != NUL && !IsWhite(c) && c != '#'
    ensures Word(s) == Before("\\", Word(s[1..]))
  {
  }

  /** The text behind a name: the end, white space, or a continued line. */
  predicate EndsName(tail: string) {
    tail == "" || IsWhite(tail[0]) || (tail[0] == '\\' && |tail| > 1 && IsEol(tail[1]))
  }

  lemma NothingLeft(tail: string)
    requires EndsName(tail)
    ensures Word(tail) == Taken("", tail)
  {
    if tail != "" && tail[0] == '\\' {
      assert LeadingSlashes(tail[1..]) == 0 && LeadingSlashes(tail) == 1;
      assert Slashes(0) == "" && tail[0..] == tail;
    }
  }

  lemma BeforeTwice(a: string, b: string, t: Taken)
    ensures Before(a, Before(b, t)) == Before(a + b, t)
  {
    Assoc(a, b, t.name);
  }

  predicate Letters(name: string) {
    (name != "" ==> name[|name| - 1] != '\\') && forall i :: 0 <= i < |name| ==> !IsEol(name[i]) && name[i] != NUL
  }

  /** An escaped name with `held` backslashes in front of it is read back whole. */
  lemma {:induction false} NameReadsBack(name: string, held: nat, tail: string)
    requires Letters(name) && EndsName(tail) && (name == "" ==> held == 0)
    ensures Word(Slashes(held) + (Munge(name, held) + tail)) == Taken(Slashes(held) + name, tail)
    decreases name
  {
    if name == "" {
      NothingLeft(tail);
      assert Slashes(0) + ("" + tail) == tail && Slashes(0) + "" == "";
    } else {
      var c, rest := name[0], name[1..];
      assert name == [c] + rest && Letters(rest);
      if c == '\\' {
        NameReadsBack(rest, held + 1, tail);
        SlashMoves(held, Munge(rest, held + 1) + tail);
        SlashMoves(held, rest);
        Assoc("\\", Munge(rest, held + 1), tail);
      } else {
        NameReadsBack(rest, 0, tail);
        LetterReadsBack(c, rest, held, tail);
        NoSlashes(Munge(rest, 0) + tail);
        NoSlashes(rest);
        Assoc(Slashes(held), [c], rest);
      }
    }
  }

  lemma NoSlashes(s: string)
    ensures Slashes(0) + s == s
  {
  }

  /** A name that ends in a backslash runs into a blank behind it. */
  lemma {:induction false} TrailingSlashEatsBlank(name: string, held: nat, tail: string)
    requires OneLine(name) && tail != "" && IsHspace(tail[0])
    requires if name == "" then held > 0 else name[|name| - 1] == '\\'
    ensures |Word(Slashes(held) + (Munge(name, held) + tail)).rest| < |tail|
    decreases name
  {
    if name == "" {
      RunOf(held, tail);
      assert "" + tail == tail;
      BlankStep(Slashes(held) + tail, held, tail[0]);
    } else {
      var c, rest := name[0], name[1..];
      assert name == [c] + rest;
      if c == '\\' {
        TrailingSlashEatsBlank(rest, held + 1, tail);
        SlashMoves(held, Munge(rest, held + 1) + tail);
        Assoc("\\", Munge(rest, held + 1), tail);
      } else {
        assert rest != "";
        TrailingSlashEatsBlank(rest, 0, tail);
        LetterReadsBack(c, rest, held, tail);
        NoSlashes(Munge(rest, 0) + tail);
      }
    }
  }

  lemma {:induction false} QuotedHasNoQuote(s: string)
    ensures '"' !in Quoted(s).name
  {
    if !(s == "" || IsEol(s[0]) || s[0] == '"') {
      QuotedHasNoQuote(s[1..]);
    }
  }

  predicate OneLine(s: string) {
    forall i :: 0 <= i < |s| ==> !IsEol(s[i]) && s[i] != NUL
  }

  lemma {:induction false} MungeIsOneLine(name: string, held: nat)
    requires OneLine(name)
    ensures OneLine(Munge(name, held))
    ensures name != "" ==> var m := Munge(name, held); m != "" && !IsHspace(m[0]) && (m[0] == '"' <==> name[0] == '"')
    decreases name
  {
    if name != "" {
      MungeIsOneLine(name[1..], if name[0] == '\\' then held + 1 else 0);
    }
  }

  lemma MungedStarts(name: string, tail: string)
    requires name != "" && OneLine(name) && tail != "" && IsHspace(tail[0])
    ensures Starts(Munge(name, 0) + tail) && ((Munge(name, 0) + tail)[0] == '"' <==> name[0] == '"')
  {
    MungeIsOneLine(name, 0);
    var m, s := Munge(name, 0), Munge(name, 0) + tail;
    assert s[0] == m[0] && s[1] == if |m| > 1 then m[1] else tail[0];
  }

  /** In front of a blank, a name comes back exactly when it neither begins with a quote nor ends in a
      backslash. */
  lemma NameBeforeBlank(name: string, tail: string, most: nat)
    requires name != "" && OneLine(name) && |name| <= most && tail != "" && IsHspace(tail[0])
    ensures Starts(Munge(name, 0) + tail)
    ensures TakeOne(Munge(name, 0) + tail, most) == Got(name, tail) <==> name[0] != '"' && name[|name| - 1] != '\\'
  {
    var s := Munge(name, 0) + tail;
    MungedStarts(name, tail);
    NoSlashes(s);
    NoSlashes(name);
    if name[0] == '"' {
      QuotedHasNoQuote(s[1..]);
      assert name[0] in name;
    } else if name[|name| - 1] == '\\' {
      TrailingSlashEatsBlank(name, 0, tail);
    } else {
      NameReadsBack(name, 0, tail);
    }
  }

  lemma SlashMoves(held: nat, s: string)
    ensures Slashes(held) + ("\\" + s) == Slashes(held + 1) + s
  {
    assert Slashes(held) + "\\" == Slashes(held + 1);
    Assoc(Slashes(held), "\\", s);
  }

  /** One escaped character that is no backslash, with the backslashes in front of it. */
  lemma LetterReadsBack(c: char, rest: string, held: nat, tail: string)
    requires c != '\\' && !IsEol(c) && c != NUL
    ensures Word(Slashes(held) + (Munge([c] + rest, held) + tail))
      == Before(Slashes(held) + [c], Word(Munge(rest, 0) + tail))
  {
    assert ([c] + rest)[0] == c && ([c] + rest)[1..] == rest;
    if IsHspace(c) {
      BlankText(c, Munge(rest, 0), held, tail);
      BlankReadsBack(held, c, Munge(rest, 0) + tail);
    } else if c == '#' {
      HashText(Munge(rest, 0), held, tail);
      HashReadsBack(held, Munge(rest, 0) + tail);
    } else {
      OrdinaryReadsBack(c, Munge(rest, 0), held, tail);
    }
  }

  lemma BlankText(c: char, munged: string, held: nat, tail: string)
    ensures Slashes(held) + (Slashes(held + 1) + ([c] + munged) + tail)
      == Slashes(held * 2 + 1) + ([c] + (munged + tail))
  {
    Past(Slashes(held + 1), [c], munged, tail);
    SlashesSum(held, held + 1);
    Assoc(Slashes(held), Slashes(held + 1), [c] + (munged + tail));
  }

  lemma HashText(munged: string, held: nat, tail: string)
    ensures Slashes(held) + ("\\#" + munged + tail) == Slashes(held + 1) + ("#" + (munged + tail))
  {
    Assoc("\\#", munged, tail);
    Assoc("\\", "#", munged + tail);
    assert "\\#" == "\\" + "#";
    SlashMoves(held, "#" + (munged + tail));
  }

  lemma OrdinaryReadsBack(c: char, munged: string, held: nat, tail: string)
    requires c != '\\' && c != '#' && !IsWhite(c) && c != NUL
    ensures Word(Slashes(held) + ((if c == '$' then "$$" else [c]) + munged + tail))
      == Before(Slashes(held) + [c], Word(munged + tail))
  {
    var body, mark := munged + tail, if c == '$' then "$$" else [c];
    Assoc(mark, munged, tail);
    Split(mark, body);
    var s := mark + body;
    assert s[0] == c && LeadingSlashes(s) == 0;
    if c == '$' {
      assert Look(s, 1) == '$';
    }
    PlainReadsBack(held, s);
    BeforeTwice(Slashes(held), [c], Word(body));
  }

  // ---------------------------------------------------------------- gaps are skipped

  lemma {:induction false} WhiteDrops(white: string, behind: string)
    requires (forall i :: 0 <= i < |white| ==> IsWhite(white[i])) && (behind == "" || !IsWhite(behind[0]))
    ensures DropWhite(white + behind) == behind
  {
    if white == "" {
      assert "" + behind == behind;
    } else {
      assert white == [white[0]] + white[1..];
      Assoc([white[0]], white[1..], behind);
      Split([white[0]], white[1..] + behind);
      WhiteDrops(white[1..], behind);
    }
  }

  lemma {:induction false} TargetDrops(target: string, behind: string)
    requires (forall i :: 0 <= i < |target| ==> !IsEol(target[i])) && !IsSep(Look(behind, 0))
    requires forall i :: 0 <= i < |target| && target[i] == ':' ==> i + 1 < |target| && IsSep(target[i + 1])
    ensures DropTarget(target + ":" + behind) == Some(behind)
  {
    var s := target + ":" + behind;
    Assoc(target, ":", behind);
    if target == "" {
      assert s == ":" + behind;
      Split(":", behind);
      assert Look(s, 1) == Look(behind, 0);
    } else {
      assert target == [target[0]] + target[1..];
      Assoc([target[0]], target[1..], ":" + behind);
      Split([target[0]], target[1..] + (":" + behind));
      Assoc(target[1..], ":", behind);
      assert s[0] == target[0] && (|target| > 1 ==> s[1] == target[1]);
      TargetDrops(target[1..], behind);
    }
  }

  lemma RuleIsSkipped(white: string, target: string, behind: string)
    requires GapFits(Rule(white, target), behind)
    ensures Seek(white + (target + ":") + behind) == Seek(behind)
  {
    var line := target + ":" + behind;
    Assoc(white, target + ":", behind);
    var s := white + line;
    assert s[0] == white[0] && DropHspace(s) == s;
    assert line[0] == if target == "" then ':' else target[0];
    WhiteDrops(white, line);
    TargetDrops(target, behind);
  }

  lemma FoldIsSkipped(s: string, k: nat)
    requires k <= |s| && Look(s, 0) == '\\'
    requires (k == 2 && Look(s, 1) == '\n') || (k == 3 && Look(s, 1) == '\r' && Look(s, 2) == '\n')
    ensures Seek(s) == Seek(s[k..])
  {
    assert DropHspace(s) == s;
  }

  lemma BlankIsSkipped(s: string)
    requires s != "" && IsHspace(s[0])
    ensures Seek(s) == Seek(s[1..])
  {
    assert DropHspace(s) == DropHspace(s[1..]);
  }

  lemma GapIsSkipped(g: Gap, behind: string)
    requires GapFits(g, behind)
    ensures Seek(GapText(g) + behind) == Seek(behind)
  {
    var text := GapText(g);
    var s := text + behind;
    Split(text, behind);
    match g
    case Blank(tab) =>
      assert s[0] == text[0];
      BlankIsSkipped(s);
    case Fold(cr) =>
      assert forall i | 0 <= i < |text| :: s[i] == text[i];
      FoldIsSkipped(s, |text|);
    case Rule(white, target) =>
      RuleIsSkipped(white, target, behind);
  }

  lemma {:induction false} GapsAreSkipped(gaps: seq<Gap>, behind: string)
    requires GapsFit(gaps, behind)
    ensures Seek(GapsText(gaps, behind)) == Seek(behind)
  {
    if gaps != [] {
      GapIsSkipped(gaps[0], GapsText(gaps[1..], behind));
      GapsAreSkipped(gaps[1..], behind);
    }
  }

  /** A written name is where seeking stops. */
  lemma NameIsFound(name: string, tail: string)
    requires Writable(name) && EndsName(tail)
    ensures Seek(Munge(name, 0) + tail) == At(Munge(name, 0) + tail) && (Munge(name, 0) + tail)[0] != '"'
  {
    var s := Munge(name, 0) + tail;
    MungeStarts(name, 0);
    assert s[0] == Munge(name, 0)[0] && (s[0] == '\\' ==> s[1] == Munge(name, 0)[1]);
    assert DropHspace(s) == s;
  }

  lemma MungeStarts(name: string, held: nat)
    requires name != "" && Letters(name)
    ensures var m := Munge(name, held);
      && m != "" && !IsWhite(m[0]) && m[0] != NUL && (m[0] == '"' <==> name[0] == '"')
      && (m[0] == '\\' ==> |m| > 1 && !IsEol(m[1]) && m[1] != NUL)
  {
    var rest := name[1..];
    if name[0] == '\\' {
      assert rest != "" && Letters(rest) by {
        assert name[|name| - 1] != '\\';
      }
      MungeStarts(rest, held + 1);
    }
  }

  lemma GapsEndName(gaps: seq<Gap>, behind: string)
    requires GapsFit(gaps, behind) && (gaps == [] ==> EndsName(behind))
    ensures EndsName(GapsText(gaps, behind))
  {
    if gaps != [] {
      var s := GapsText(gaps, behind);
      assert s[0] == GapText(gaps[0])[0];
      if gaps[0].Fold? {
        assert s[1] == GapText(gaps[0])[1];
      }
    }
  }

  // ---------------------------------------------------------------- the round trip

  lemma EndIsOver(last: seq<Gap>, end: string)
    requires GapsFit(last, end) && IsEnd(end)
    ensures Seek(GapsText(last, end)) == Over
  {
    GapsAreSkipped(last, end);
    if end != "" {
      assert DropHspace(end) == end;
      assert end + "" == end;
      WhiteDrops(end, "");
    }
  }

  lemma ItemReadsBack(gaps: seq<Gap>, name: string, tail: string, most: nat)
    requires Writable(name) && EndsName(tail) && |name| <= most && GapsFit(gaps, Munge(name, 0) + tail)
    ensures Seek(GapsText(gaps, Munge(name, 0) + tail)).At?
    ensures TakeOne(Seek(GapsText(gaps, Munge(name, 0) + tail)).rest, most) == Got(name, tail)
  {
    GapsAreSkipped(gaps, Munge(name, 0) + tail);
    NameIsFound(name, tail);
    NameIsTaken(name, tail, most);
  }

  lemma NameIsTaken(name: string, tail: string, most: nat)
    requires Writable(name) && EndsName(tail) && |name| <= most && Starts(Munge(name, 0) + tail)
    requires (Munge(name, 0) + tail)[0] != '"'
    ensures TakeOne(Munge(name, 0) + tail, most) == Got(name, tail)
  {
    NameReadsBack(name, 0, tail);
    NoSlashes(Munge(name, 0) + tail);
    NoSlashes(name);
  }

  lemma {:induction false} ItemsReadBack(items: seq<Item>, last: seq<Gap>, end: string, first: bool, most: nat)
    requires ItemsFit(items, last, end, first) && forall i :: 0 <= i < |items| ==> |items[i].name| <= most
    ensures Decode(ItemsText(items, last, end), most) == Decoded(NamesOf(items), None)
    decreases |items|
  {
    hide Seek, TakeOne, GapsText, GapsFit, Munge, Writable, EndsName, IsEnd;
    if items == [] {
      EndIsOver(last, end);
    } else {
      var name, tail := items[0].name, ItemsText(items[1..], last, end);
      ItemsReadBack(items[1..], last, end, false, most);
      TailEndsName(items[1..], last, end);
      ItemReadsBack(items[0].gaps, name, tail, most);
      assert NamesOf(items) == [name] + NamesOf(items[1..]);
    }
  }

  lemma TailEndsName(items: seq<Item>, last: seq<Gap>, end: string)
    requires ItemsFit(items, last, end, false)
    ensures EndsName(ItemsText(items, last, end))
  {
    if items == [] {
      GapsEndName(last, end);
    } else {
      GapsEndName(items[0].gaps, Munge(items[0].name, 0) + ItemsText(items[1..], last, end));
    }
  }

  /** A dependency file gives back exactly its prerequisites, in order, without an error. */
  lemma RoundTrip(white: string, target: string, items: seq<Item>, last: seq<Gap>, end: string, most: nat)
    requires (forall i :: 0 <= i < |white| ==> IsWhite(white[i])) && IsTarget(target)
    requires ItemsFit(items, last, end, true) && (forall i :: 0 <= i < |items| ==> |items[i].name| <= most)
    requires !IsSep(Look(ItemsText(items, last, end), 0))
    ensures DecodeFile(white + (target + ":" + ItemsText(items, last, end)), most) == Decoded(NamesOf(items), None)
  {
    var text := ItemsText(items, last, end);
    var line := target + ":" + text;
    assert line[0] == if target == "" then ':' else target[0];
    WhiteDrops(white, line);
    TargetDrops(target, text);
    ItemsReadBack(items, last, end, true, most);
  }

  // ---------------------------------------------------------------- malformed files

  lemma {:induction false} NoTarget(s: string)
    requires ':' !in s
    ensures DropTarget(s).None?
  {
    if s != "" && !IsEol(s[0]) {
      NoTarget(s[1..]);
    }
  }

  lemma {:induction false} WhiteKeeps(s: string)
    ensures forall c :: c in DropWhite(s) ==> c in s
    ensures (exists i :: 0 <= i < |s| && !IsWhite(s[i])) <==> DropWhite(s) != ""
  {
    if s != "" && IsWhite(s[0]) {
      WhiteKeeps(s[1..]);
      if i :| 0 <= i < |s| && !IsWhite(s[i]) {
        assert s[1..][i - 1] == s[i];
      }
      if i :| 0 <= i < |s[1..]| && !IsWhite(s[1..][i]) {
        assert s[i + 1] == s[1..][i];
      }
    }
  }

  /** A target ends at the first colon, unless a slash of either kind follows it: then the colon is that of a
      drive. A line end before it means that there is none. */
  lemma {:induction false} ColonEnds(front: string, behind: string)
    requires ':' !in front && '\n' !in front && '\r' !in front
    ensures DropTarget(front + (":" + behind))
         == if behind != "" && (behind[0] == '/' || behind[0] == '\\') then DropTarget(behind) else Some(behind)
    ensures forall eol :: eol == '\n' || eol == '\r' ==> DropTarget(front + ([eol] + behind)).None?
  {
    if front == "" {
      Split(":", behind);
      assert front + (":" + behind) == ":" + behind && Look(":" + behind, 1) == Look(behind, 0);
      forall eol | eol == '\n' || eol == '\r' ensures DropTarget(front + ([eol] + behind)).None? {
        assert (front + ([eol] + behind))[0] == eol;
      }
    } else {
      var s := front + (":" + behind);
      assert s[0] == front[0] && s[0] in front && s[1..] == front[1..] + (":" + behind);
      ColonEnds(front[1..], behind);
      forall eol | eol == '\n' || eol == '\r' ensures DropTarget(front + ([eol] + behind)).None? {
        var all := front + ([eol] + behind);
        assert all[0] == front[0] && all[1..] == front[1..] + ([eol] + behind);
      }
    }
  }

  /** A text without a colon names no target: it is an error, unless it is blank. */
  lemma WithoutColon(content: string, most: nat)
    requires ':' !in content && NUL !in content
    ensures (exists i :: 0 <= i < |content| && !IsWhite(content[i])) ==>
      DecodeFile(content, most) == Decoded([], Some(MissingColon))
    ensures (forall i :: 0 <= i < |content| ==> IsWhite(content[i])) ==> DecodeFile(content, most) == Decoded([], None)
  {
    WhiteKeeps(content);
    NoTarget(DropWhite(content));
    if DropWhite(content) == "" {
      assert Seek("") == Over;
    }
  }

  lemma {:induction false} QuotedRun(name: string, behind: string)
    requires '"' !in name && '\n' !in name && '\r' !in name
    requires behind == "" || behind[0] == '"' || IsEol(behind[0])
    ensures Quoted(name + behind) == Taken(name, behind)
  {
    if name == "" {
      assert name + behind == behind;
    } else {
      var s := name + behind;
      assert s[0] == name[0] && s[0] in name && s[1..] == name[1..] + behind;
      QuotedRun(name[1..], behind);
      assert [name[0]] + name[1..] == name;
    }
  }

  /** A name in quotes is read up to the closing quote; it is an error if the line ends before, and if the name
      is longer than allowed. */
  lemma InQuotes(name: string, behind: string, most: nat)
    requires '"' !in name && '\n' !in name && '\r' !in name
    ensures |name| <= most ==> TakeOne("\"" + (name + ("\"" + behind)), most) == Got(name, behind)
    ensures |name| <= most && (behind != "" ==> IsEol(behind[0])) ==>
      TakeOne("\"" + (name + behind), most) == Failed(UnterminatedQuote)
    ensures |name| > most ==> TakeOne("\"" + (name + ("\"" + behind)), most) == Failed(TooLong)
  {
    Split("\"", name + ("\"" + behind));
    Split("\"", name + behind);
    Split("\"", behind);
    QuotedRun(name, "\"" + behind);
    if behind != "" ==> IsEol(behind[0]) {
      QuotedRun(name, behind);
    }
  }

  /** A backslash in front of a carriage return that no line feed follows continues nothing. */
  lemma BrokenContinuation(behind: string)
    requires behind == "" || behind[0] != '\n'
    ensures Seek("\\\r" + behind) == Bad(BadContinuation)
  {
    var s := "\\\r" + behind;
    assert DropHspace(s) == s;
    assert Look(s, 2) == Look(behind, 0);
  }

  // ---------------------------------------------------------------- the decoder

  class Parser {
    const content: string
    const most: nat
    var n: nat
    var err: Option<Err>

    ghost predicate Valid()
      reads this
    {
      n <= |content|
    }

    function Rest(): string
      requires Valid()
      reads this
    {
      content[n..]
    }

    method Peek() returns (c: char)
      requires Valid()
      ensures c == Look(Rest(), 0)
    {
      return if n < |content| then content[n] else NUL;
    }

    method EatHspace() returns (c: char)
      requires Valid()
      modifies this`n
      ensures Valid() && Rest() == DropHspace(old(Rest())) && c == Look(Rest(), 0)
    {
      while n < |content| && IsHspace(content[n])
        invariant Valid() && DropHspace(old(Rest())) == DropHspace(Rest())
      {
        n := n + 1;
      }
      c := Peek();
    }

    method EatWhitespace() returns (c: char)
      requires Valid()
      modifies this`n
      ensures Valid() && Rest() == DropWhite(old(Rest())) && c == Look(Rest(), 0)
    {
      while n < |content| && IsWhite(content[n])
        invariant Valid() && DropWhite(old(Rest())) == DropWhite(Rest())
      {
        n := n + 1;
      }
      c := Peek();
    }

    /** `occ_parse_target`. */
    method ParseTarget() returns (ok: bool)
      requires Valid()
      modifies this`n
      ensures Valid() && n >= old(n)
      ensures ok <==> DropTarget(old(Rest())).Some?
      ensures ok ==> DropTarget(old(Rest())) == Some(Rest())
    {
      while n < |content| && !IsEol(content[n])
        invariant Valid() && n >= old(n) && DropTarget(old(Rest())) == DropTarget(Rest())
      {
        assert Rest()[1..] == content[n + 1..];
        if content[n] == ':' {
          n := n + 1;
          if n < |content| && IsSep(content[n]) {
            continue;
          }
          return true;
        }
        n := n + 1;
      }
      return false;
    }

    /** `occ_seek`. */
    method SeekNext() returns (found: bool)
      requires Valid() && err.None?
      modifies this
      ensures Valid() && n >= old(n)
      ensures match Seek(old(Rest()))
              case At(t) => found && err.None? && Rest() == t
              case Over => !found && err.None?
              case Bad(e) => !found && err == Some(e)
    {
      while true
        invariant Valid() && n >= old(n) && err.None? && Seek(old(Rest())) == Seek(Rest())
        decreases |content| - n
      {
        ghost var start := Rest();
        var c := EatHspace();
        ghost var at := Rest();
        if c == NUL { return false; }
        if IsEol(c) {
          c := EatWhitespace();
          if c == NUL { return false; }
          ghost var line := Rest();
          var ok := ParseTarget();
          if !ok {
            err := Some(MissingColon);
            return false;
          }
          continue;
        }
        if c != '\\' { return true; }
        var next := Look(content, n + 1);
        assert next == Look(at, 1) && Look(content, n + 2) == Look(at, 2);
        if next == NUL {
          n := n + 1;
          return false;
        }
        if next == '\n' {
          n := n + 2;
          assert Rest() == at[2..];
          continue;
        }
        if next == '\r' && Look(content, n + 2) == '\n' {
          n := n + 3;
          assert Rest() == at[3..];
          continue;
        }
        if next == '\r' {
          err := Some(BadContinuation);
          return false;
        }
        return true;
      }
    }

    /** `occ_push`, as often as there are characters. */
    method Push(name: string, more: string) returns (ok: bool, grown: string)
      requires |name| <= most
      ensures ok <==> |name| + |more| <= most
      ensures ok ==> grown == name + more
    {
      grown := name;
      assert name + more[..0] == name;
      for it := 0 to |more|
        invariant |grown| <= most && grown == name + more[..it]
      {
        if |grown| >= most {
          return false, grown;
        }
        assert more[..it + 1] == more[..it] + [more[it]];
        Assoc(name, more[..it], [more[it]]);
        grown := grown + [more[it]];
      }
      assert more[..|more|] == more;
      return true, grown;
    }

    method CountSlashes() returns (slashes: nat)
      requires Valid()
      ensures slashes == LeadingSlashes(Rest())
    {
      slashes := 0;
      while Look(content, n + slashes) == '\\'
        invariant n + slashes <= |content| && LeadingSlashes(Rest()) == slashes + LeadingSlashes(content[n + slashes..])
        decreases |content| - (n + slashes)
      {
        assert content[n + slashes..][1..] == content[n + slashes + 1..];
        slashes := slashes + 1;
      }
    }

    method ParseQuoted() returns (name: string)
      requires Valid() && err.None? && Rest() != ""
      modifies this
      ensures Valid()
      ensures var body := Quoted(old(Rest())[1..]);
        if |body.name| > most then err == Some(TooLong)
        else if Look(body.rest, 0) == '"' then err.None? && name == body.name && Rest() == body.rest[1..]
        else err == Some(UnterminatedQuote)
    {
      hide IsEol;
      n := n + 1;
      name := "";
      ghost var body := Quoted(Rest());
      assert Before("", body) == body by {
        assert "" + body.name == body.name;
      }
      while n < |content| && !IsEol(content[n]) && content[n] != '"'
        invariant Valid() && err.None? && |name| <= most && body == Before(name, Quoted(Rest()))
      {
        assert Rest()[1..] == content[n + 1..];
        BeforeTwice(name, [content[n]], Quoted(content[n + 1..]));
        var ok;
        ok, name := Push(name, [content[n]]);
        if !ok {
          err := Some(TooLong);
          return;
        }
        n := n + 1;
      }
      Assoc(name, "", "");
      if n < |content| && content[n] == '"' {
        n := n + 1;
      } else {
        err := Some(UnterminatedQuote);
      }
    }

    /** A run of backslashes: what it means depends on what follows. */
    method SlashPiece() returns (piece: Piece)
      requires Valid() && Look(Rest(), 0) == '\\'
      ensures piece == NextPiece(Rest())
    {
      var slashes := CountSlashes();
      var next := Look(content, n + slashes);
      assert next == Look(Rest(), slashes);
      if next == NUL {
        return Piece(slashes, Slashes(slashes - 1), true);
      }
      if IsEol(next) {
        return Piece(slashes - 1, Slashes(slashes - 1), true);
      }
      if IsHspace(next) {
        return Piece(slashes + 1, Slashes(slashes / 2) + [next], false);
      }
      if next == '#' {
        return Piece(slashes + 1, Slashes(slashes - 1) + "#", false);
      }
      return Piece(1, "\\", false);
    }

    /** One turn of the loop over an unquoted name: what it reads, and what it stands for. */
    method WordStep() returns (last: bool, text: string)
      requires Valid() && Rest() != "" && !IsWhite(Rest()[0])
      modifies this`n
      ensures Valid() && (n > old(n) || last)
      ensures var piece := NextPiece(old(Rest()));
        last == piece.last && text == piece.text && Rest() == old(Rest())[piece.used..]
    {
      var piece;
      if content[n] == '\\' {
        piece := SlashPiece();
      } else {
        assert Look(content, n + 1) == Look(Rest(), 1) && LeadingSlashes(Rest()) == 0;
        piece :=
          if content[n] == '$' && Look(content, n + 1) == '$' then Piece(2, "$", false)
          else Piece(1, [content[n]], false);
      }
      assert content[n + piece.used..] == Rest()[piece.used..];
      n := n + piece.used;
      return piece.last, piece.text;
    }

    method ParseWord() returns (name: string)
      requires Valid() && err.None?
      modifies this
      ensures Valid()
      ensures var word := Word(old(Rest()));
        if |word.name| > most then err == Some(TooLong) else err.None? && name == word.name && Rest() == word.rest
    {
      name := "";
      ghost var word := Word(Rest());
      assert "" + word.name == word.name;
      while n < |content| && !IsWhite(content[n])
        invariant Valid() && err.None? && |name| <= most && word == Before(name, Word(Rest()))
        decreases |content| - n
      {
        ghost var was := name;
        var last, text := WordStep();
        if !last {
          BeforeTwice(was, text, Word(Rest()));
        }
        var ok;
        ok, name := Push(name, text);
        if !ok {
          err := Some(TooLong);
          return;
        }
        if last {
          return;
        }
      }
      Assoc(name, "", "");
    }

    /** `occ_next`. */
    method Next() returns (found: bool, name: string)
      requires Valid()
      modifies this
      ensures Valid()
      ensures old(err).Some? ==> !found && err == old(err)
      ensures old(err).None? ==>
        match Seek(old(Rest()))
        case Over => !found && err.None?
        case Bad(e) => !found && err == Some(e)
        case At(t) =>
          match TakeOne(t, most)
          case Failed(e) => !found && err == Some(e)
          case Got(nm, rest) => found && err.None? && name == nm && Rest() == rest
    {
      name := "";
      if err.Some? {
        return false, "";
      }
      found := SeekNext();
      if !found {
        return;
      }
      if content[n] == '"' {
        name := ParseQuoted();
      } else {
        name := ParseWord();
      }
      found := err.None?;
    }

    /** `occ_init`. */
    constructor (content: string, most: nat)
      ensures Valid() && this.content == content && this.most == most
      ensures var u := DropWhite(content);
        if Look(u, 0) == NUL then err.None? && Rest() == u
        else if DropTarget(u).None? then err == Some(MissingColon)
        else err.None? && DropTarget(u) == Some(Rest())
    {
      this.content, this.most := content, most;
      n, err := 0, None;
      new;
      assert content[0..] == content;
      var c := EatWhitespace();
      if c != NUL {
        var ok := ParseTarget();
        if !ok {
          err := Some(MissingColon);
        }
      }
    }
  }

  /** What a caller gets from one `occ_next` after the other. */
  method DecodeAll(content: string, most: nat) returns (decoded: Decoded)
    ensures decoded == DecodeFile(content, most)
  {
    var p := new Parser(content, most);
    if p.err.Some? {
      return Decoded([], p.err);
    }
    var names: seq<string> := [];
    ghost var whole := Decode(p.Rest(), most);
    assert [] + whole.names == whole.names;
    while true
      invariant p.Valid() && p.err.None? && p.most == most
      invariant whole == Decode(p.Rest(), most).(names := names + Decode(p.Rest(), most).names)
      decreases |p.Rest()|
    {
      ghost var here := p.Rest();
      var found, name := p.Next();
      if !found {
        assert names + [] == names;
        return Decoded(names, p.err);
      }
      assert (names + [name]) + Decode(p.Rest(), most).names == names + ([name] + Decode(p.Rest(), most).names);
      names := names + [name];
    }
  }
}
