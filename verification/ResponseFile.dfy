/** Response files (source/core/compiler/rsp.c), against the tokenisers that read them: the GNU rules
    (quotes, and a backslash escapes the next character) and the rules of the Microsoft C runtime
    (backslashes count only before a quote). `blank` is what a tokeniser splits at. */
module ResponseFile {
  import opened Bytes
  import opened Paths

  datatype Style = Gnu | Windows

  // ---------------------------------------------------------------- quoting

  predicate Special(style: Style, c: char) {
    c == ' ' || c == '\t' || c == '\n' || c == '\r' || c == '"' || c == '\'' || (c == '\\' && style.Gnu?)
  }

  predicate NeedsQuotes(style: Style, arg: string) {
    arg == "" || arg[0] == '#' || exists i :: 0 <= i < |arg| && Special(style, arg[i])
  }

  function GnuBody(arg: string): string {
    if arg == "" then "\""
    else (if arg[0] == '\\' || arg[0] == '"' then ['\\', arg[0]] else [arg[0]]) + GnuBody(arg[1..])
  }

  /** The rest of a quoted argument after `held` backslashes that are not yet written. */
  function WindowsBody(arg: string, held: nat): string
    decreases arg
  {
    if arg == "" then Slashes(held * 2) + "\""
    else if arg[0] == '\\' then WindowsBody(arg[1..], held + 1)
    else Slashes(if arg[0] == '"' then held * 2 + 1 else held) + ([arg[0]] + WindowsBody(arg[1..], 0))
  }

  function Written(style: Style, arg: string): string {
    if !NeedsQuotes(style, arg) then arg
    else "\"" + if style.Gnu? then GnuBody(arg) else WindowsBody(arg, 0)
  }

  function Rendered(style: Style, args: seq<string>): string {
    if args == [] then "" else Written(style, args[0]) + ("\n" + Rendered(style, args[1..]))
  }

  // ---------------------------------------------------------------- the tokenisers

  datatype Quote = Plain | Single | Double

  function Flush(word: Option<string>): seq<string> {
    if word.Some? then [word.value] else []
  }

  function Grow(word: Option<string>, s: string): Option<string> {
    Some((if word.Some? then word.value else "") + s)
  }

  function GnuTokens(blank: set<char>, s: string, quote: Quote, escaped: bool, word: Option<string>): seq<string> {
    if s == "" then Flush(word)
    else
      var c, rest := s[0], s[1..];
      if c in blank && quote.Plain? && !escaped then Flush(word) + GnuTokens(blank, rest, Plain, false, None)
      else if escaped then GnuTokens(blank, rest, quote, false, Grow(word, [c]))
      else if c == '\\' then GnuTokens(blank, rest, quote, true, Grow(word, ""))
      else if quote.Plain? && c == '\'' then GnuTokens(blank, rest, Single, false, Grow(word, ""))
      else if quote.Plain? && c == '"' then GnuTokens(blank, rest, Double, false, Grow(word, ""))
      else if (quote.Single? && c == '\'') || (quote.Double? && c == '"') then
        GnuTokens(blank, rest, Plain, false, word)
      else GnuTokens(blank, rest, quote, false, Grow(word, [c]))
  }

  /** What the runtime reads next: `used` characters that stand for `text`, or end a word. */
  datatype Lexeme = Part(used: nat, text: string, quoted: bool) | Gap

  function NextLexeme(blank: set<char>, s: string, quoted: bool): (r: Lexeme)
    requires s != ""
    ensures r.Part? ==> 0 < r.used <= |s|
  {
    var k := LeadingSlashes(s);
    if k > 0 then
      if k < |s| && s[k] == '"' then
        if k % 2 == 1 then Part(k + 1, Slashes(k / 2) + "\"", quoted) else Part(k, Slashes(k / 2), quoted)
      else Part(k, Slashes(k), quoted)
    else if s[0] == '"' then
      if quoted && |s| > 1 && s[1] == '"' then Part(2, "\"", quoted) else Part(1, "", !quoted)
    else if s[0] in blank && !quoted then Gap
    else Part(1, [s[0]], quoted)
  }

  function WindowsTokens(blank: set<char>, s: string, quoted: bool, word: Option<string>): seq<string>
    decreases |s|
  {
    if s == "" then Flush(word)
    else
      match NextLexeme(blank, s, quoted)
      case Part(used, text, after) => WindowsTokens(blank, s[used..], after, Grow(word, text))
      case Gap => Flush(word) + WindowsTokens(blank, s[1..], false, None)
  }

  function Tokens(style: Style, blank: set<char>, s: string): seq<string> {
    if style.Gnu? then GnuTokens(blank, s, Plain, false, None) else WindowsTokens(blank, s, false, None)
  }

  /** A tokeniser splits at least at line ends, and never at a quote or a backslash. */
  predicate Splits(blank: set<char>) {
    '\n' in blank && '"' !in blank && '\'' !in blank && '\\' !in blank
  }

  // ---------------------------------------------------------------- one argument, GNU

  lemma {:induction false} GnuQuoted(blank: set<char>, arg: string, tail: string, word: string)
    ensures GnuTokens(blank, GnuBody(arg) + tail, Double, false, Some(word))
      == GnuTokens(blank, tail, Plain, false, Some(word + arg))
    decreases arg
  {
    if arg == "" {
      assert word + arg == word;
      Split("\"", tail);
    } else {
      var c, body := arg[0], GnuBody(arg[1..]);
      GnuQuoted(blank, arg[1..], tail, word + [c]);
      assert word + [c] + arg[1..] == word + arg;
      if c == '\\' || c == '"' {
        Assoc(['\\', c], body, tail);
        assert (['\\', c] + (body + tail))[1..] == [c] + (body + tail);
        Split([c], body + tail);
        assert word + "" == word;
      } else {
        Assoc([c], body, tail);
        Split([c], body + tail);
      }
    }
  }

  /** The words of an argument that is not quoted. */
  function Words(blank: set<char>, arg: string, word: Option<string>): seq<string> {
    if arg == "" then Flush(word)
    else if arg[0] in blank then Flush(word) + Words(blank, arg[1..], None)
    else Words(blank, arg[1..], Grow(word, [arg[0]]))
  }

  lemma {:induction false} GnuUnquoted(blank: set<char>, arg: string, tail: string, word: Option<string>)
    requires Splits(blank) && forall i :: 0 <= i < |arg| ==> !Special(Gnu, arg[i])
    ensures GnuTokens(blank, arg + ("\n" + tail), Plain, false, word)
      == Words(blank, arg, word) + GnuTokens(blank, tail, Plain, false, None)
    decreases arg
  {
    var rest := "\n" + tail;
    if arg == "" {
      assert "" + rest == rest;
      Split("\n", tail);
    } else {
      assert arg == [arg[0]] + arg[1..];
      Assoc([arg[0]], arg[1..], rest);
      Split([arg[0]], arg[1..] + rest);
      if arg[0] in blank {
        GnuUnquoted(blank, arg[1..], tail, None);
        JoinWords(Flush(word), Words(blank, arg[1..], None), GnuTokens(blank, tail, Plain, false, None));
      } else {
        GnuUnquoted(blank, arg[1..], tail, Grow(word, [arg[0]]));
      }
    }
  }

  lemma JoinWords(a: seq<string>, b: seq<string>, c: seq<string>)
    ensures (a + b) + c == a + (b + c)
  {
  }

  // ---------------------------------------------------------------- one argument, Windows

  lemma SlashesLead(n: nat, tail: string)
    requires tail != "" && tail[0] != '\\'
    ensures LeadingSlashes(Slashes(n) + tail) == n && (Slashes(n) + tail)[n..] == tail
  {
    var s := Slashes(n) + tail;
    assert s[n] == tail[0];
    Split(Slashes(n), tail);
    LeadingIs(s, n);
  }

  lemma SlashesJoin(m: nat, n: nat, word: string)
    ensures word + Slashes(m) + Slashes(n) == word + Slashes(m + n)
  {
    assert Slashes(m) + Slashes(n) == Slashes(m + n);
    Assoc(word, Slashes(m), Slashes(n));
  }

  /** An odd run of backslashes before a quote. */
  lemma OddRun(blank: set<char>, n: nat, tail: string, word: string)
    requires n % 2 == 1
    ensures WindowsTokens(blank, Slashes(n) + ("\"" + tail), true, Some(word))
         == WindowsTokens(blank, tail, true, Some(word + Slashes(n / 2) + "\""))
  {
    var s, rest := Slashes(n) + ("\"" + tail), "\"" + tail;
    Split("\"", tail);
    SlashesLead(n, rest);
    assert s[n] == rest[0] && s[n + 1..] == s[n..][1..];
    OddStep(blank, s, n, word);
    Assoc(word, Slashes(n / 2), "\"");
  }

  lemma OddStep(blank: set<char>, s: string, k: nat, word: string)
    requires k == LeadingSlashes(s) && k % 2 == 1 && k < |s| && s[k] == '"'
    ensures WindowsTokens(blank, s, true, Some(word))
      == WindowsTokens(blank, s[k + 1..], true, Some(word + (Slashes(k / 2) + "\"")))
  {
  }

  /** A run of backslashes before any other character. */
  lemma PlainRun(blank: set<char>, n: nat, c: char, tail: string, word: string)
    requires c != '\\' && c != '"'
    ensures WindowsTokens(blank, Slashes(n) + ([c] + tail), true, Some(word))
         == WindowsTokens(blank, tail, true, Some(word + Slashes(n) + [c]))
  {
    var s := [c] + tail;
    Split([c], tail);
    SlashesLead(n, s);
    assert LeadingSlashes(s) == 0;
    if n == 0 {
      assert Slashes(0) == "" && "" + s == s;
      Assoc(word, "", "");
    } else {
      assert (Slashes(n) + s)[n] == c;
    }
  }

  /** A doubled run before a quote that closes. */
  lemma DoubledRun(blank: set<char>, held: nat, rest: string, word: string)
    ensures WindowsTokens(blank, Slashes(held * 2) + ("\"" + rest), true, Some(word))
         == WindowsTokens(blank, "\"" + rest, true, Some(word + Slashes(held)))
  {
    var s := "\"" + rest;
    SlashesLead(held * 2, s);
    if held == 0 {
      assert Slashes(0) + s == s && word + Slashes(0) == word;
    } else {
      assert (Slashes(held * 2) + s)[held * 2] == '"';
    }
  }

  lemma ClosingQuote(blank: set<char>, tail: string, word: string)
    ensures WindowsTokens(blank, "\"" + ("\n" + tail), true, Some(word))
      == WindowsTokens(blank, "\n" + tail, false, Some(word))
  {
    var s := "\"" + ("\n" + tail);
    Split("\"", "\n" + tail);
    assert s[1] == '\n' && LeadingSlashes(s) == 0;
    assert word + "" == word;
  }

  /** The closing quote behind a doubled run, at the end of the line. */
  lemma ClosingRun(blank: set<char>, held: nat, tail: string, word: string)
    ensures WindowsTokens(blank, Slashes(held * 2) + "\"" + ("\n" + tail), true, Some(word))
         == WindowsTokens(blank, "\n" + tail, false, Some(word + Slashes(held)))
  {
    Assoc(Slashes(held * 2), "\"", "\n" + tail);
    DoubledRun(blank, held, "\n" + tail, word);
    ClosingQuote(blank, tail, word + Slashes(held));
  }

  /** One character that is no backslash, with the backslashes held in front of it. */
  lemma OrdinaryStep(blank: set<char>, held: nat, c: char, body: string, rest: string, word: string)
    requires c != '\\'
    ensures WindowsTokens(blank, Slashes(if c == '"' then held * 2 + 1 else held) + ([c] + body) + rest,
                          true, Some(word))
         == WindowsTokens(blank, body + rest, true, Some(word + Slashes(held) + [c]))
  {
    var n := if c == '"' then held * 2 + 1 else held;
    Past(Slashes(n), [c], body, rest);
    if c == '"' {
      OddRun(blank, n, body + rest, word);
    } else {
      PlainRun(blank, n, c, body + rest, word);
    }
  }

  lemma Regroup(word: string, held: nat, c: char, arg: string)
    requires arg != "" && arg[0] == c
    ensures (word + Slashes(held) + [c]) + Slashes(0) + arg[1..] == word + Slashes(held) + arg
  {
    assert Slashes(0) == "" && arg == [c] + arg[1..];
    Assoc(word + Slashes(held) + [c], "", "");
    Assoc(word + Slashes(held), [c], arg[1..]);
  }

  lemma {:induction false} WindowsQuoted(blank: set<char>, arg: string, held: nat, tail: string, word: string)
    ensures WindowsTokens(blank, WindowsBody(arg, held) + ("\n" + tail), true, Some(word))
         == WindowsTokens(blank, "\n" + tail, false, Some(word + Slashes(held) + arg))
    decreases arg
  {
    if arg == "" {
      ClosingRun(blank, held, tail, word);
      Assoc(word + Slashes(held), "", "");
    } else if arg[0] == '\\' {
      WindowsQuoted(blank, arg[1..], held + 1, tail, word);
      SlashMoves(word, held, arg);
    } else {
      OrdinaryStep(blank, held, arg[0], WindowsBody(arg[1..], 0), "\n" + tail, word);
      WindowsQuoted(blank, arg[1..], 0, tail, word + Slashes(held) + [arg[0]]);
      Regroup(word, held, arg[0], arg);
    }
  }

  lemma SlashMoves(word: string, held: nat, arg: string)
    requires arg != "" && arg[0] == '\\'
    ensures word + Slashes(held + 1) + arg[1..] == word + Slashes(held) + arg
  {
    SlashesJoin(held, 1, word);
    assert Slashes(1) == "\\" && arg == "\\" + arg[1..];
    Assoc(word + Slashes(held), "\\", arg[1..]);
  }

  /** Unquoted, backslashes stand for themselves; a run of them may be read at once. */
  lemma {:induction false} WindowsUnquoted(blank: set<char>, arg: string, tail: string, word: Option<string>)
    requires Splits(blank) && forall i :: 0 <= i < |arg| ==> !Special(Windows, arg[i])
    ensures WindowsTokens(blank, arg + ("\n" + tail), false, word)
      == Words(blank, arg, word) + WindowsTokens(blank, tail, false, None)
    decreases |arg|
  {
    var rest := "\n" + tail;
    if arg == "" {
      assert "" + rest == rest;
      Split("\n", tail);
      assert LeadingSlashes(rest) == 0;
    } else if arg[0] == '\\' {
      var k := LeadingSlashes(arg);
      RunAndRest(arg, k, rest);
      WindowsUnquoted(blank, arg[k..], tail, Grow(word, Slashes(k)));
      WordsOfRun(blank, arg, k, word);
    } else {
      assert arg == [arg[0]] + arg[1..];
      Assoc([arg[0]], arg[1..], rest);
      Split([arg[0]], arg[1..] + rest);
      assert LeadingSlashes(arg + rest) == 0;
      if arg[0] in blank {
        WindowsUnquoted(blank, arg[1..], tail, None);
        JoinWords(Flush(word), Words(blank, arg[1..], None), WindowsTokens(blank, tail, false, None));
      } else {
        WindowsUnquoted(blank, arg[1..], tail, Grow(word, [arg[0]]));
      }
    }
  }

  lemma RunAndRest(arg: string, k: nat, rest: string)
    requires k == LeadingSlashes(arg) && rest != "" && rest[0] == '\n' && forall i :: 0 <= i < |arg| ==> arg[i] != '"'
    ensures LeadingSlashes(arg + rest) == k && (arg + rest)[k] != '"' && (arg + rest)[k..] == arg[k..] + rest
  {
    var s := arg + rest;
    assert s[k] == if k < |arg| then arg[k] else rest[0];
    assert forall i | 0 <= i < k :: s[i] == arg[i];
    LeadingIs(s, k);
  }

  lemma {:induction false} LeadingIs(s: string, k: nat)
    requires k <= |s| && (forall i :: 0 <= i < k ==> s[i] == '\\') && (k < |s| ==> s[k] != '\\')
    ensures LeadingSlashes(s) == k
    decreases k
  {
    if k > 0 {
      LeadingIs(s[1..], k - 1);
    }
  }

  lemma {:induction false} WordsOfRun(blank: set<char>, arg: string, k: nat, word: Option<string>)
    requires '\\' !in blank && k <= LeadingSlashes(arg) && k > 0
    ensures Words(blank, arg, word) == Words(blank, arg[k..], Grow(word, Slashes(k)))
    decreases k
  {
    assert arg[0] == '\\' && LeadingSlashes(arg[1..]) == LeadingSlashes(arg) - 1;
    if k == 1 {
      assert Slashes(1) == "\\";
    } else {
      WordsOfRun(blank, arg[1..], k - 1, Grow(word, "\\"));
      assert arg[1..][k - 1..] == arg[k..];
      assert Slashes(1) == "\\";
      SlashesJoin(1, k - 1, if word.Some? then word.value else "");
    }
  }

  // ---------------------------------------------------------------- whole files

  predicate NoBlank(blank: set<char>, s: string) {
    forall i :: 0 <= i < |s| ==> s[i] !in blank
  }

  function Read(style: Style, blank: set<char>, arg: string): seq<string> {
    if NeedsQuotes(style, arg) then [arg] else Words(blank, arg, None)
  }

  function ReadAll(style: Style, blank: set<char>, args: seq<string>): seq<string> {
    if args == [] then [] else Read(style, blank, args[0]) + ReadAll(style, blank, args[1..])
  }

  lemma ArgumentIsRead(style: Style, blank: set<char>, arg: string, tail: string)
    requires Splits(blank)
    ensures Tokens(style, blank, Written(style, arg) + ("\n" + tail))
      == Read(style, blank, arg) + Tokens(style, blank, tail)
  {
    var rest := "\n" + tail;
    Split("\n", tail);
    if NeedsQuotes(style, arg) {
      assert "" + arg == arg && "" + Slashes(0) + arg == arg && "" + "" == "";
      if style.Gnu? {
        Assoc("\"", GnuBody(arg), rest);
        Split("\"", GnuBody(arg) + rest);
        GnuQuoted(blank, arg, rest, "");
      } else {
        var body := WindowsBody(arg, 0);
        Assoc("\"", body, rest);
        Split("\"", body + rest);
        assert LeadingSlashes("\"" + (body + rest)) == 0 && LeadingSlashes(rest) == 0;
        WindowsQuoted(blank, arg, 0, tail, "");
      }
    } else if style.Gnu? {
      GnuUnquoted(blank, arg, tail, None);
    } else {
      WindowsUnquoted(blank, arg, tail, None);
    }
  }

  /** A rendered file is read argument by argument. */
  lemma {:induction false} FileIsRead(style: Style, blank: set<char>, args: seq<string>)
    requires Splits(blank)
    ensures Tokens(style, blank, Rendered(style, args)) == ReadAll(style, blank, args)
  {
    if args != [] {
      FileIsRead(style, blank, args[1..]);
      ArgumentIsRead(style, blank, args[0], Rendered(style, args[1..]));
    }
  }

  lemma {:induction false} WordsHaveNoBlank(blank: set<char>, arg: string, word: Option<string>, t: string)
    requires word.Some? ==> NoBlank(blank, word.value)
    requires t in Words(blank, arg, word)
    ensures NoBlank(blank, t)
    decreases arg
  {
    if arg != "" {
      if arg[0] in blank {
        if t in Words(blank, arg[1..], None) {
          WordsHaveNoBlank(blank, arg[1..], None, t);
        }
      } else {
        WordsHaveNoBlank(blank, arg[1..], Grow(word, [arg[0]]), t);
      }
    }
  }

  lemma {:induction false} OneWord(blank: set<char>, arg: string, word: string)
    requires NoBlank(blank, arg)
    ensures Words(blank, arg, Some(word)) == [word + arg]
    decreases arg
  {
    if arg == "" {
      assert word + arg == word;
    } else {
      OneWord(blank, arg[1..], word + [arg[0]]);
      assert word + [arg[0]] + arg[1..] == word + arg;
    }
  }

  /** The arguments a tokeniser reads back as they are. */
  predicate Survives(style: Style, blank: set<char>, arg: string) {
    NeedsQuotes(style, arg) || NoBlank(blank, arg)
  }

  lemma {:induction false} OnlySurvivorsAreRead(style: Style, blank: set<char>, args: seq<string>, t: string)
    requires t in ReadAll(style, blank, args)
    ensures Survives(style, blank, t)
  {
    if t in Read(style, blank, args[0]) {
      if !NeedsQuotes(style, args[0]) {
        WordsHaveNoBlank(blank, args[0], None, t);
      }
    } else {
      OnlySurvivorsAreRead(style, blank, args[1..], t);
    }
  }

  lemma {:induction false} SurvivorsAreRead(style: Style, blank: set<char>, args: seq<string>)
    requires forall i :: 0 <= i < |args| ==> Survives(style, blank, args[i])
    ensures ReadAll(style, blank, args) == args
  {
    if args != [] {
      var arg := args[0];
      SurvivorsAreRead(style, blank, args[1..]);
      if !NeedsQuotes(style, arg) {
        OneWord(blank, arg[1..], "" + [arg[0]]);
        assert "" + [arg[0]] + arg[1..] == arg;
      }
      assert Read(style, blank, arg) == [arg];
    }
  }

  /** Rendering and tokenising gives back the list exactly when no unquoted argument holds a character
      the tokeniser splits at. */
  lemma RoundTrip(style: Style, blank: set<char>, args: seq<string>)
    requires Splits(blank)
    ensures Tokens(style, blank, Rendered(style, args)) == args
       <==> forall i :: 0 <= i < |args| ==> Survives(style, blank, args[i])
  {
    FileIsRead(style, blank, args);
    if ReadAll(style, blank, args) == args {
      forall i | 0 <= i < |args| ensures Survives(style, blank, args[i]) {
        OnlySurvivorsAreRead(style, blank, args, args[i]);
      }
    }
    if forall i :: 0 <= i < |args| ==> Survives(style, blank, args[i]) {
      SurvivorsAreRead(style, blank, args);
    }
  }

  /** A tokeniser that splits at blanks, tabs and line ends only gives back every list. */
  lemma PlainBlanksAlwaysRoundTrip(style: Style, blank: set<char>, args: seq<string>)
    requires Splits(blank) && blank <= {' ', '\t', '\n', '\r'}
    ensures Tokens(style, blank, Rendered(style, args)) == args
  {
    forall i | 0 <= i < |args| ensures Survives(style, blank, args[i]) {
      assert forall k | 0 <= k < |args[i]| && args[i][k] in blank :: Special(style, args[i][k]);
    }
    RoundTrip(style, blank, args);
  }

  /** Splitting at vertical tabs too, as the GNU library does, breaks an argument that holds one. */
  lemma VerticalTabIsNotQuoted()
    ensures Tokens(Gnu, {' ', '\t', '\n', '\r', 11 as char, 12 as char}, Rendered(Gnu, [['a', 11 as char, 'b']]))
         != [['a', 11 as char, 'b']]
  {
    var blank, arg := {' ', '\t', '\n', '\r', 11 as char, 12 as char}, ['a', 11 as char, 'b'];
    RoundTrip(Gnu, blank, [arg]);
    assert arg[1] in blank;
    assert [arg][0] == arg && !Survives(Gnu, blank, arg);
  }

  /** No argument is written as a comment or as an empty line, and only those are written as they are that hold
      no blank, no line end, no quote, under GNU rules no backslash, and do not begin like a comment. */
  lemma WrittenLooks(style: Style, arg: string)
    ensures Written(style, arg) != "" && Written(style, arg)[0] != '#'
    ensures Written(style, arg)[0] != '"' <==>
      && arg != "" && arg[0] != '#' && ' ' !in arg && '\t' !in arg && '\n' !in arg && '\r' !in arg
      && '"' !in arg && '\'' !in arg && (style.Gnu? ==> '\\' !in arg)
    ensures Written(style, arg)[0] != '"' ==> Written(style, arg) == arg
  {
    if NeedsQuotes(style, arg) && arg != "" && arg[0] != '#' {
      var i :| 0 <= i < |arg| && Special(style, arg[i]);
      assert arg[i] in arg;
    }
    if arg != "" && arg[0] == '"' {
      assert Special(style, arg[0]);
    }
    if !NeedsQuotes(style, arg) {
      forall c | c in arg ensures !Special(style, c) {
        var i :| 0 <= i < |arg| && arg[i] == c;
      }
    }
  }

  // ---------------------------------------------------------------- the writer

  class Writer {
    var out: string

    constructor ()
      ensures out == ""
    {
      out := "";
    }

    method WriteChar(c: char)
      modifies this
      ensures out == old(out) + [c]
    {
      out := out + [c];
    }

    method WriteSlashes(n: nat)
      modifies this
      ensures out == old(out) + Slashes(n)
    {
      assert out == out + Slashes(0);
      for jt := 0 to n
        invariant out == old(out) + Slashes(jt)
      {
        WriteChar('\\');
        assert Slashes(jt) + "\\" == Slashes(jt + 1);
        Assoc(old(out), Slashes(jt), "\\");
      }
    }

    /** `write_quoted_windows`. */
    method WriteQuotedWindows(arg: string)
      modifies this
      ensures out == old(out) + ("\"" + WindowsBody(arg, 0))
    {
      WriteChar('"');
      ghost var was := out;
      Assoc(old(out), "\"", WindowsBody(arg, 0));
      var backslashes := 0;
      for it := 0 to |arg|
        invariant out + WindowsBody(arg[it..], backslashes) == was + WindowsBody(arg, 0)
      {
        assert arg[it..][1..] == arg[it + 1..];
        if arg[it] == '\\' {
          backslashes := backslashes + 1;
        } else {
          var n := if arg[it] == '"' then backslashes * 2 + 1 else backslashes;
          Assoc(out, Slashes(n), [arg[it]] + WindowsBody(arg[it + 1..], 0));
          Assoc(out + Slashes(n), [arg[it]], WindowsBody(arg[it + 1..], 0));
          WriteSlashes(n);
          backslashes := 0;
          WriteChar(arg[it]);
        }
      }
      assert arg[|arg|..] == "";
      Assoc(out, Slashes(backslashes * 2), "\"");
      WriteSlashes(backslashes * 2);
      WriteChar('"');
    }

    /** `write_quoted_gnu`. */
    method WriteQuotedGnu(arg: string)
      modifies this
      ensures out == old(out) + ("\"" + GnuBody(arg))
    {
      WriteChar('"');
      ghost var was := out;
      Assoc(old(out), "\"", GnuBody(arg));
      for it := 0 to |arg|
        invariant out + GnuBody(arg[it..]) == was + GnuBody(arg)
      {
        var c := arg[it];
        assert arg[it..][1..] == arg[it + 1..];
        ghost var here, rest := out, GnuBody(arg[it + 1..]);
        if c == '\\' || c == '"' {
          WriteChar('\\');
          Assoc(here, "\\", [c]);
          Assoc(here, ['\\', c], rest);
          assert "\\" + [c] == ['\\', c];
        } else {
          Assoc(here, [c], rest);
        }
        WriteChar(c);
      }
      assert arg[|arg|..] == "";
      WriteChar('"');
    }

    /** `needs_quotes`. */
    static method Quotes(style: Style, arg: string) returns (needed: bool)
      ensures needed <==> NeedsQuotes(style, arg)
    {
      if arg == "" || arg[0] == '#' {
        return true;
      }
      for it := 0 to |arg|
        invariant forall i :: 0 <= i < it ==> !Special(style, arg[i])
      {
        if Special(style, arg[it]) {
          return true;
        }
      }
      return false;
    }

    /** `write_arg`. */
    method WriteArg(style: Style, arg: string)
      modifies this
      ensures out == old(out) + Written(style, arg)
    {
      var quotes := Quotes(style, arg);
      if !quotes {
        out := out + arg;
      } else if style.Windows? {
        WriteQuotedWindows(arg);
      } else {
        WriteQuotedGnu(arg);
      }
    }

    /** `spn_rsp_render`. */
    method Render(style: Style, args: seq<string>)
      modifies this
      ensures out == old(out) + Rendered(style, args)
    {
      for it := 0 to |args|
        invariant out + Rendered(style, args[it..]) == old(out) + Rendered(style, args)
      {
        assert args[it..][1..] == args[it + 1..];
        Assoc(out, Written(style, args[it]), "\n" + Rendered(style, args[it + 1..]));
        Assoc(out + Written(style, args[it]), "\n", Rendered(style, args[it + 1..]));
        WriteArg(style, args[it]);
        WriteChar('\n');
      }
      assert args[|args|..] == [];
      assert out + "" == out;
    }
  }
}
