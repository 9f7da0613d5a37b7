/** What templates mean, said of their texts (tools/gen/sp_template.h:90-120, 203-507): the laws speak of
    the text that goes in and the text that comes out, not of how directives are read or evaluated. */
module TemplateLaws {
  import opened Bytes
  import opened Paths
  import opened Template

  // ---------------------------------------------------------------- texts and names

  /** A run of text, a directive in double braces, and what follows. */
  function Then(run: string, content: string, rest: string): string {
    run + ("{{" + (content + ("}}" + rest)))
  }

  predicate NoBrace(s: string) {
    '{' !in s
  }

  /** Text without directives that neither begins nor ends with white space. */
  predicate Clean(s: string) {
    NoBrace(s) && (s != "" ==> !IsBlank(s[0]) && !IsBlank(s[|s| - 1]))
  }

  predicate CleanName(x: string) {
    x != "" && forall i :: 0 <= i < |x| ==> !IsBlank(x[i]) && x[i] != '}'
  }

  function SubstOf(x: string): string {
    " " + (("." + x) + " ")
  }

  function LeafOf(x: string): string {
    " " + (("$" + x) + " ")
  }

  function ForOf(x: string): string {
    " " + (("for" + (" " + ("." + x))) + " ")
  }

  function IfOf(x: string, negate: bool): string {
    " " + (("if" + (" " + ((if negate then "!." else ".") + x))) + " ")
  }

  const ElseTag := " else "
  const EndTag := " end "

  // ---------------------------------------------------------------- what names mean

  /** The first place from `from` on where the scope binds `x` is `j`, and it binds it to `v`. */
  ghost predicate BindsAt(frame: Frame, x: string, from: nat, j: nat, v: Value) {
    && from <= j < |frame.names| && j < |frame.values| && frame.names[j] == x && frame.values[j] == v
    && forall k :: from <= k < j ==> frame.names[k] != x
  }

  ghost predicate Binds(frame: Frame, x: string, v: Value) {
    exists j :: BindsAt(frame, x, 0, j, v)
  }

  ghost predicate Lacks(frame: Frame, x: string) {
    forall j :: 0 <= j < |frame.names| && j < |frame.values| ==> frame.names[j] != x
  }

  /** The innermost scope that binds `x` is the one at `k`, and it binds it to `v`. */
  ghost predicate Means(env: Env, x: string, k: nat, v: Value) {
    k < |env| && Binds(env[k], x, v) && forall j :: 0 <= j < k ==> Lacks(env[j], x)
  }

  ghost predicate Nowhere(env: Env, x: string) {
    forall j :: 0 <= j < |env| ==> Lacks(env[j], x)
  }

  predicate Full(v: Value) {
    match v
    case Text(text) => text != ""
    case List(items) => items != []
  }

  lemma {:induction false} FindsAt(frame: Frame, x: string, from: nat, j: nat)
    requires from <= j < |frame.names| && j < |frame.values| && frame.names[j] == x
    requires forall k :: from <= k < j ==> frame.names[k] != x
    ensures Find(frame, x, from) == Some(frame.values[j])
    decreases j - from
  {
    if from < j {
      FindsAt(frame, x, from + 1, j);
    }
  }

  lemma {:induction false} FindsNothing(frame: Frame, x: string, from: nat)
    requires Lacks(frame, x)
    ensures Find(frame, x, from).None?
    decreases |frame.names| - from
  {
    if from < |frame.names| && from < |frame.values| {
      FindsNothing(frame, x, from + 1);
    }
  }

  lemma {:induction false} Resolves(env: Env, x: string, k: nat, v: Value)
    requires Means(env, x, k, v)
    ensures Resolve(env, x) == Some(Binding(v, env[k..]))
    decreases k
  {
    if k == 0 {
      var j :| BindsAt(env[0], x, 0, j, v);
      FindsAt(env[0], x, 0, j);
      assert env[0..] == env;
    } else {
      FindsNothing(env[0], x, 0);
      assert env[1..][k - 1] == env[k] && env[1..][k - 1..] == env[k..];
      forall j | 0 <= j < k - 1 ensures Lacks(env[1..][j], x) {
        assert env[1..][j] == env[j + 1];
      }
      Resolves(env[1..], x, k - 1, v);
    }
  }

  lemma {:induction false} ResolvesNothing(env: Env, x: string)
    requires Nowhere(env, x)
    ensures Resolve(env, x).None?
  {
    if env != [] {
      FindsNothing(env[0], x, 0);
      forall j | 0 <= j < |env[1..]| ensures Lacks(env[1..][j], x) {
        assert env[1..][j] == env[j + 1];
      }
      ResolvesNothing(env[1..], x);
    }
  }

  // ---------------------------------------------------------------- reading a directive

  /** Neither the first nor the last character is white space. */
  predicate Tight(s: string) {
    s != "" && !IsBlank(s[0]) && !IsBlank(s[|s| - 1])
  }

  lemma TrimTight(s: string)
    requires Tight(s)
    ensures Trim(s) == s && Trim(" " + (s + " ")) == s
  {
    var padded := s + " ";
    Split(" ", padded);
    assert padded[0] == s[0] && TrimFront(padded) == padded;
    assert padded[..|padded| - 1] == s;
  }

  lemma {:induction false} Cleaves(word: string, rest: string)
    requires ' ' !in word
    ensures Keyword(word + (" " + rest)) == word && Operand(word + (" " + rest)) == rest
  {
    var s := word + (" " + rest);
    if word == "" {
      assert s == " " + rest;
      Split(" ", rest);
    } else {
      assert s[0] == word[0] && s[1..] == word[1..] + (" " + rest);
      Cleaves(word[1..], rest);
    }
  }

  lemma NameIsMarked(x: string, mark: char)
    requires CleanName(x)
    ensures Marked([mark] + x, mark) == Some(x) && (!IsBlank(mark) ==> Tight([mark] + x))
  {
    var s := [mark] + x;
    Split([mark], x);
    assert s[|s| - 1] == x[|x| - 1];
  }

  lemma ReadsSubst(x: string)
    requires CleanName(x)
    ensures Classify(SubstOf(x)) == Some(Subst(x)) && '}' !in SubstOf(x)
  {
    NameIsMarked(x, '.');
    TrimTight("." + x);
  }

  lemma ReadsLeaf(x: string)
    requires CleanName(x)
    ensures Classify(LeafOf(x)) == Some(Include(x)) && '}' !in LeafOf(x)
  {
    NameIsMarked(x, '$');
    TrimTight("$" + x);
  }

  lemma WordTight(word: string, operand: string)
    requires word != "" && !IsBlank(word[0]) && Tight(operand)
    ensures Tight(word + (" " + operand)) && (word + (" " + operand))[0] == word[0]
  {
    var s := word + (" " + operand);
    assert s[|s| - 1] == operand[|operand| - 1];
  }

  lemma ReadsFor(x: string)
    requires CleanName(x)
    ensures Classify(ForOf(x)) == Some(For(x)) && '}' !in ForOf(x)
  {
    NameIsMarked(x, '.');
    WordTight("for", "." + x);
    TrimTight("for" + (" " + ("." + x)));
    TrimTight("." + x);
    Cleaves("for", "." + x);
  }

  lemma Operands(x: string, negate: bool)
    requires CleanName(x)
    ensures var operand := (if negate then "!." else ".") + x;
      && Tight(operand) && operand[0] == (if negate then '!' else '.') && '}' !in operand
      && (negate ==> operand[1..] == "." + x)
  {
    var operand := (if negate then "!." else ".") + x;
    assert operand[|operand| - 1] == x[|x| - 1];
  }

  lemma ReadsIf(x: string, negate: bool)
    requires CleanName(x)
    ensures Classify(IfOf(x, negate)) == Some(If(x, negate)) && '}' !in IfOf(x, negate)
  {
    hide Trim, Keyword, Operand, Marked, Tight, CleanName;
    var operand := (if negate then "!." else ".") + x;
    Operands(x, negate);
    NameIsMarked(x, '.');
    WordTight("if", operand);
    TrimTight("if" + (" " + operand));
    TrimTight(operand);
    TrimTight("." + x);
    Cleaves("if", operand);
    IfIsRead(x, negate, IfOf(x, negate), "if" + (" " + operand), operand);
  }

  lemma IfIsRead(x: string, negate: bool, content: string, d: string, operand: string)
    requires Trim(content) == d && d != "" && d[0] == 'i' && Keyword(d) == "if" && Trim(Operand(d)) == operand
    requires operand != "" && operand[0] == (if negate then '!' else '.')
    requires Marked(if negate then Trim(operand[1..]) else operand, '.') == Some(x)
    ensures Classify(content) == Some(If(x, negate))
  {
    hide Trim, Keyword, Operand, Marked;
  }

  lemma {:induction false} StandsAlone(word: string)
    requires ' ' !in word
    ensures Keyword(word) == word && Operand(word) == ""
  {
    if word != "" {
      StandsAlone(word[1..]);
    }
  }

  lemma ReadsMarks()
    ensures Classify(ElseTag) == Some(Else) && Classify(EndTag) == Some(End) && '}' !in ElseTag && '}' !in EndTag
  {
    hide Trim, Keyword, Operand, Marked;
    StandsAlone("else");
    StandsAlone("end");
    TrimTight("else");
    TrimTight("end");
    TrimNothing();
    assert ElseTag == " " + ("else" + " ") && EndTag == " " + ("end" + " ");
  }

  lemma TrimNothing()
    ensures Trim("") == ""
  {
  }

  // ---------------------------------------------------------------- stepping through a text

  lemma PairAt(s: string, i: nat, run: string, c: char, tail: string)
    requires i <= |s| && s[i..] == run + ([c, c] + tail) && c !in run
    ensures NextPair(s, i, c) == i + |run| < |s|
  {
    var k := i + |run|;
    assert |s[i..]| == |run| + 2 + |tail|;
    assert s[k] == s[i..][|run|] == c && s[k + 1] == s[i..][|run| + 1] == c;
    assert At(s, k, c);
    forall j | i <= j < k ensures !At(s, j, c) {
      assert s[j] == s[i..][j - i] == run[j - i];
    }
  }

  lemma NoPair(s: string, i: nat)
    requires i <= |s| && NoBrace(s[i..])
    ensures NextPair(s, i, '{') == |s|
  {
    forall j | i <= j < |s| ensures !At(s, j, '{') {
      assert s[j] == s[i..][j - i];
    }
  }

  /** What stands behind a position further on. */
  lemma Further(s: string, i: nat, front: string, back: string)
    requires i <= |s| && s[i..] == front + back
    ensures i + |front| <= |s| && s[i + |front|..] == back && s[i..i + |front|] == front
  {
    assert s[i..][|front|..] == back && s[i..][..|front|] == front;
  }

  /** Where the directive begins, where its content ends, and what is behind it. */
  lemma Places(s: string, i: nat, run: string, content: string, rest: string)
    requires i <= |s| && s[i..] == Then(run, content, rest) && NoBrace(run) && '}' !in content
    ensures var open, close := i + |run|, i + |run| + 2 + |content|;
      && NextPair(s, i, '{') == open && close + 2 == |s| - |rest| && NextPair(s, open + 2, '}') == close
      && s[i..open] == run && s[open + 2..close] == content && s[close + 2..] == rest
  {
    hide NextPair;
    var open, inner, behind := i + |run|, content + ("}}" + rest), "}}" + rest;
    Further(s, i, run, "{{" + inner);
    Further(s, open, "{{", inner);
    Further(s, open + 2, content, behind);
    Further(s, open + 2 + |content|, "}}", rest);
    PairAt(s, i, run, '{', inner);
    PairAt(s, open + 2, content, '}', rest);
  }

  lemma StepFrom(s: string, i: nat, open: nat, close: nat, d: Directive)
    requires i < |s| && NextPair(s, i, '{') == open && open + 2 <= close && close + 2 <= |s|
    requires NextPair(s, open + 2, '}') == close && Classify(s[open + 2..close]) == Some(d)
    ensures NextStep(s, i)
         == if d.Block() then Found(LStrip(s[i..open], i == 0 || s[i - 1] == '\n'), d, AfterBlock(s, close + 2))
            else Found(s[i..open], d, close + 2)
  {
  }

  lemma StepFound(s: string, i: nat, run: string, content: string, rest: string, d: Directive)
    requires i <= |s| && s[i..] == Then(run, content, rest) && NoBrace(run) && '}' !in content
    requires Classify(content) == Some(d)
    ensures i < |s| && |rest| <= |s| && s[|s| - |rest|..] == rest
    ensures var next := |s| - |rest|;
      NextStep(s, i) == if d.Block() then Found(LStrip(run, i == 0 || s[i - 1] == '\n'), d, AfterBlock(s, next))
                        else Found(run, d, next)
  {
    hide Classify, LStrip, AfterBlock, NextPair, NextStep;
    Places(s, i, run, content, rest);
    StepFrom(s, i, i + |run|, i + |run| + 2 + |content|, d);
  }

  /** A clean run is not stripped, and nothing behind a block directive is swallowed in front of one. */
  lemma CleanStays(s: string, i: nat, run: string, lineStart: bool)
    requires Clean(run) && i <= |s| && (i < |s| ==> !IsBlank(s[i]))
    ensures LStrip(run, lineStart) == run && AfterBlock(s, i) == i
  {
    if run != "" {
      assert TrimIndent(run) == run;
    }
  }

  /** The next directive of a text whose runs are clean. */
  lemma CleanStep(s: string, i: nat, run: string, content: string, rest: string, d: Directive)
    requires i <= |s| && s[i..] == Then(run, content, rest) && Clean(run) && '}' !in content
    requires Classify(content) == Some(d) && (rest != "" ==> !IsBlank(rest[0]))
    ensures i < |s| && |rest| <= |s| && s[|s| - |rest|..] == rest
    ensures NextStep(s, i) == Found(run, d, |s| - |rest|)
  {
    StepFound(s, i, run, content, rest, d);
    var next := |s| - |rest|;
    assert next < |s| ==> s[next] == rest[0];
    CleanStays(s, next, run, i == 0 || s[i - 1] == '\n');
  }

  function LiteralOf(text: string): seq<Node> {
    if text == "" then [] else [Literal(text)]
  }

  lemma ParseText(s: string, i: nat)
    requires i <= |s| && NoBrace(s[i..])
    ensures Parse(s, i) == Block(LiteralOf(s[i..]), |s|, false, false)
  {
    NoPair(s, i);
    if i < |s| {
      assert s[i..] != "";
    }
  }

  lemma ParseMark(s: string, i: nat, run: string, content: string, rest: string, d: Directive)
    requires i <= |s| && s[i..] == Then(run, content, rest) && Clean(run) && '}' !in content
    requires Classify(content) == Some(d) && (d.Else? || d.End?) && (rest != "" ==> !IsBlank(rest[0]))
    ensures |rest| <= |s| && s[|s| - |rest|..] == rest
    ensures Parse(s, i) == Block([Literal(run)], |s| - |rest|, d.End?, d.Else?)
  {
    CleanStep(s, i, run, content, rest, d);
  }

  lemma RunText(text: string, mode: Mode)
    requires mode.Render?
    ensures Run(LiteralOf(text), mode) == Result(Ok, text) && Run(LiteralOf(text), Skip) == Result(Ok, "")
    ensures Run([Literal(text)], mode) == Result(Ok, text) && Run([Literal(text)], Skip) == Result(Ok, "")
  {
    RunOne(Literal(text), mode);
    RunOne(Literal(text), Skip);
  }

  /** A text that begins with a run and one directive that stands for a node. */
  lemma WholeOf(s: string, run: string, d: Directive, next: nat, back: string)
    requires s != "" && NextStep(s, 0) == Found(run, d, next) && !d.Else? && !d.End? && next <= |s|
    requires ParseDirective(s, d, next).stop <= |s| && s[ParseDirective(s, d, next).stop..] == back && NoBrace(back)
    ensures Whole(s) == [Literal(run), ParseDirective(s, d, next).node] + LiteralOf(back)
  {
    ParseText(s, ParseDirective(s, d, next).stop);
  }

  /** Then such a text renders to the run, whatever the node gives, and the rest. */
  lemma RenderedOf(s: string, run: string, node: Node, back: string, env: Env, registry: map<string, string>)
    requires Whole(s) == [Literal(run), node] + LiteralOf(back)
    ensures var r := RunNode(node, Render(env, 0, registry));
      Rendered(s, env, registry) == Result(r.err, run + (r.out + if r.err.Ok? then back else ""))
  {
    var mode := Render(env, 0, registry);
    RunTwo(Literal(run), node, LiteralOf(back), mode);
    RunText(back, mode);
    Empty(RunNode(node, mode).out);
  }

  // ---------------------------------------------------------------- the laws

  /** Some scope binds `x`, and the innermost one that does gives it a nonempty text or list. */
  ghost predicate Holds(env: Env, x: string) {
    exists k: nat, v :: Means(env, x, k, v) && Full(v)
  }

  lemma {:induction false} FirstBinding(frame: Frame, x: string, from: nat)
    ensures Find(frame, x, from).None? ==>
      forall j :: from <= j < |frame.names| && j < |frame.values| ==> frame.names[j] != x
    ensures Find(frame, x, from).Some? ==> exists j :: BindsAt(frame, x, from, j, Find(frame, x, from).value)
    decreases |frame.names| - from
  {
    if from < |frame.names| && from < |frame.values| && frame.names[from] != x {
      FirstBinding(frame, x, from + 1);
      if Find(frame, x, from).Some? {
        var j :| BindsAt(frame, x, from + 1, j, Find(frame, x, from).value);
        assert BindsAt(frame, x, from, j, Find(frame, x, from).value);
      }
    } else if from < |frame.names| && from < |frame.values| {
      assert BindsAt(frame, x, from, from, frame.values[from]);
    }
  }

  lemma {:induction false} Decided(env: Env, x: string)
    ensures Nowhere(env, x) || exists k: nat, v :: Means(env, x, k, v)
  {
    if env != [] {
      FirstBinding(env[0], x, 0);
      if Find(env[0], x, 0).Some? {
        assert Means(env, x, 0, Find(env[0], x, 0).value);
      } else {
        Decided(env[1..], x);
        if k: nat, v :| Means(env[1..], x, k, v) {
          assert env[1..][k] == env[k + 1];
          forall j | 0 <= j < k + 1 ensures Lacks(env[j], x) {
            assert j > 0 ==> env[1..][j - 1] == env[j];
          }
          assert Means(env, x, k + 1, v);
        } else {
          forall j | 0 <= j < |env| ensures Lacks(env[j], x) {
            assert j > 0 ==> env[1..][j - 1] == env[j];
          }
        }
      }
    }
  }

  lemma TruthMeans(env: Env, x: string, negate: bool)
    ensures Truthy(env, x, negate) <==> if negate then !Holds(env, x) else Holds(env, x)
  {
    Decided(env, x);
    if Nowhere(env, x) {
      ResolvesNothing(env, x);
      forall k, v ensures !Means(env, x, k, v) {
        if Means(env, x, k, v) {
          Resolves(env, x, k, v);
        }
      }
    } else {
      var k, v :| Means(env, x, k, v);
      Resolves(env, x, k, v);
      forall l, w | Means(env, x, l, w) ensures w == v {
        Resolves(env, x, l, w);
      }
    }
  }

  // The trees the texts of the laws are parsed to.

  lemma SubstWhole(p: string, x: string, q: string)
    requires NoBrace(p) && NoBrace(q) && CleanName(x)
    ensures Whole(Then(p, SubstOf(x), q)) == [Literal(p), Insert(x)] + LiteralOf(q)
  {
    hide NextStep, Classify, SubstOf;
    var s := Then(p, SubstOf(x), q);
    ReadsSubst(x);
    StepFound(s, 0, p, SubstOf(x), q, Subst(x));
    WholeOf(s, p, Subst(x), |s| - |q|, q);
  }

  lemma LeafWhole(p: string, x: string, q: string)
    requires NoBrace(p) && NoBrace(q) && CleanName(x)
    ensures Whole(Then(p, LeafOf(x), q)) == [Literal(p), Leaf(x)] + LiteralOf(q)
  {
    hide NextStep, Classify, LeafOf;
    var s := Then(p, LeafOf(x), q);
    ReadsLeaf(x);
    StepFound(s, 0, p, LeafOf(x), q, Include(x));
    WholeOf(s, p, Include(x), |s| - |q|, q);
  }

  /** What follows a run begins with the run, or with a brace. */
  lemma ThenStarts(run: string, content: string, rest: string)
    requires Clean(run)
    ensures Then(run, content, rest) != "" && !IsBlank(Then(run, content, rest)[0])
  {
    assert run == "" ==> Then(run, content, rest)[0] == '{';
  }

  lemma ConditionWhole(p: string, x: string, negate: bool, a: string, b: string, q: string)
    requires Clean(p) && Clean(a) && Clean(b) && Clean(q) && CleanName(x)
    ensures Whole(Then(p, IfOf(x, negate), Then(a, ElseTag, Then(b, EndTag, q))))
         == [Literal(p), Choose(x, negate, [Literal(a)], [Literal(b)])] + LiteralOf(q)
  {
    hide NextStep, Classify, IfOf, Then, Parse;
    var last := Then(b, EndTag, q);
    var body := Then(a, ElseTag, last);
    var s := Then(p, IfOf(x, negate), body);
    ReadsIf(x, negate);
    ReadsMarks();
    ThenStarts(b, EndTag, q);
    ThenStarts(a, ElseTag, last);
    CleanStep(s, 0, p, IfOf(x, negate), body, If(x, negate));
    ParseMark(s, |s| - |body|, a, ElseTag, last, Else);
    ParseMark(s, |s| - |last|, b, EndTag, q, End);
    WholeOf(s, p, If(x, negate), |s| - |body|, q);
  }

  lemma ConditionAloneWhole(p: string, x: string, negate: bool, a: string, q: string)
    requires Clean(p) && Clean(a) && Clean(q) && CleanName(x)
    ensures Whole(Then(p, IfOf(x, negate), Then(a, EndTag, q)))
         == [Literal(p), Choose(x, negate, [Literal(a)], [])] + LiteralOf(q)
  {
    hide NextStep, Classify, IfOf, Then, Parse;
    var body := Then(a, EndTag, q);
    var s := Then(p, IfOf(x, negate), body);
    ReadsIf(x, negate);
    ReadsMarks();
    ThenStarts(a, EndTag, q);
    CleanStep(s, 0, p, IfOf(x, negate), body, If(x, negate));
    ParseMark(s, |s| - |body|, a, EndTag, q, End);
    WholeOf(s, p, If(x, negate), |s| - |body|, q);
  }

  lemma ParseInsert(s: string, i: nat, run: string, y: string, rest: string)
    requires i <= |s| && s[i..] == Then(run, SubstOf(y), rest) && NoBrace(run) && CleanName(y)
    ensures |rest| <= |s|
    ensures var b := Parse(s, |s| - |rest|); Parse(s, i) == b.(nodes := [Literal(run), Insert(y)] + b.nodes)
  {
    hide NextStep, Classify, SubstOf;
    ReadsSubst(y);
    StepFound(s, i, run, SubstOf(y), rest, Subst(y));
  }

  lemma LoopWhole(p: string, x: string, a: string, y: string, b: string, q: string)
    requires Clean(p) && Clean(a) && Clean(b) && Clean(q) && CleanName(x) && CleanName(y)
    ensures Whole(Then(p, ForOf(x), Then(a, SubstOf(y), Then(b, EndTag, q))))
         == [Literal(p), Repeat(x, [Literal(a), Insert(y)] + [Literal(b)])] + LiteralOf(q)
  {
    hide NextStep, Classify, ForOf, SubstOf, Then, Parse;
    var last := Then(b, EndTag, q);
    var body := Then(a, SubstOf(y), last);
    var s := Then(p, ForOf(x), body);
    ReadsFor(x);
    ReadsMarks();
    ThenStarts(a, SubstOf(y), last);
    CleanStep(s, 0, p, ForOf(x), body, For(x));
    ParseInsert(s, |s| - |body|, a, y, last);
    Behind(s, |s| - |body|, a, SubstOf(y), last);
    ParseMark(s, |s| - |last|, b, EndTag, q, End);
    WholeOf(s, p, For(x), |s| - |body|, q);
  }

  lemma Behind(s: string, i: nat, run: string, content: string, rest: string)
    requires i <= |s| && s[i..] == Then(run, content, rest)
    ensures |rest| <= |s| && s[|s| - |rest|..] == rest
  {
    var front := run + ("{{" + (content + "}}"));
    assert s[i..] == front + rest;
    Further(s, i, front, rest);
  }

  lemma PlainLoopWhole(p: string, x: string, a: string, q: string)
    requires Clean(p) && Clean(a) && Clean(q) && CleanName(x)
    ensures Whole(Then(p, ForOf(x), Then(a, EndTag, q))) == [Literal(p), Repeat(x, [Literal(a)])] + LiteralOf(q)
  {
    hide NextStep, Classify, ForOf, Then, Parse;
    var body := Then(a, EndTag, q);
    var s := Then(p, ForOf(x), body);
    ReadsFor(x);
    ReadsMarks();
    ThenStarts(a, EndTag, q);
    CleanStep(s, 0, p, ForOf(x), body, For(x));
    ParseMark(s, |s| - |body|, a, EndTag, q, End);
    WholeOf(s, p, For(x), |s| - |body|, q);
  }

  /** `{{ .x }}` is the text the innermost binding gives; it fails behind the text in front of it if nothing
      binds `x`, or if a list does. */
  lemma Substitution(p: string, x: string, q: string, env: Env, registry: map<string, string>)
    requires NoBrace(p) && NoBrace(q) && CleanName(x)
    ensures forall k: nat, t :: Means(env, x, k, Text(t)) ==>
      Rendered(Then(p, SubstOf(x), q), env, registry) == Result(Ok, p + (t + q))
    ensures forall k: nat, items :: Means(env, x, k, List(items)) ==>
      Rendered(Then(p, SubstOf(x), q), env, registry) == Result(WrongKind, p)
    ensures Nowhere(env, x) ==> Rendered(Then(p, SubstOf(x), q), env, registry) == Result(MissingKey, p)
  {
    hide Then, SubstOf, Whole, Rendered, Nowhere;
    SubstWhole(p, x, q);
    RenderedOf(Then(p, SubstOf(x), q), p, Insert(x), q, env, registry);
    Empty(p);
    Empty("");
    forall k: nat, v | Means(env, x, k, v) ensures Resolve(env, x) == Some(Binding(v, env[k..])) {
      Resolves(env, x, k, v);
    }
    if Nowhere(env, x) {
      ResolvesNothing(env, x);
    }
  }

  /** `{{ if .x }}a{{ else }}b{{ end }}` is `a` exactly when `x` holds, and `b` otherwise; with `!` it is the
      other way round. */
  lemma Condition(p: string, x: string, negate: bool, a: string, b: string, q: string, env: Env,
                  registry: map<string, string>)
    requires Clean(p) && Clean(a) && Clean(b) && Clean(q) && CleanName(x)
    ensures Rendered(Then(p, IfOf(x, negate), Then(a, ElseTag, Then(b, EndTag, q))), env, registry)
         == Result(Ok, p + ((if negate then (if Holds(env, x) then b else a)
                             else (if Holds(env, x) then a else b)) + q))
  {
    hide Then, IfOf, Whole, Rendered, Holds, Truthy;
    ConditionWhole(p, x, negate, a, b, q);
    RenderedOf(Then(p, IfOf(x, negate), Then(a, ElseTag, Then(b, EndTag, q))), p,
               Choose(x, negate, [Literal(a)], [Literal(b)]), q, env, registry);
    var mode := Render(env, 0, registry);
    RunText(a, mode);
    RunText(b, mode);
    TruthMeans(env, x, negate);
    Empty(a);
    Empty(b);
  }

  /** Without an `else` nothing is written when the condition fails. */
  lemma ConditionAlone(p: string, x: string, negate: bool, a: string, q: string, env: Env,
                       registry: map<string, string>)
    requires Clean(p) && Clean(a) && Clean(q) && CleanName(x)
    ensures Rendered(Then(p, IfOf(x, negate), Then(a, EndTag, q)), env, registry)
         == Result(Ok, p + ((if negate then (if Holds(env, x) then "" else a)
                             else (if Holds(env, x) then a else "")) + q))
  {
    hide Then, IfOf, Whole, Rendered, Holds, Truthy;
    ConditionAloneWhole(p, x, negate, a, q);
    RenderedOf(Then(p, IfOf(x, negate), Then(a, EndTag, q)), p, Choose(x, negate, [Literal(a)], []), q, env, registry);
    var mode := Render(env, 0, registry);
    RunText(a, mode);
    TruthMeans(env, x, negate);
    Empty(a);
  }

  /** The innermost scope that binds `y` gives it a text. */
  ghost predicate Gives(env: Env, y: string, t: string) {
    exists k: nat :: Means(env, y, k, Text(t))
  }

  /** `a` and a text between, once for each text. */
  function Rounds(a: string, ts: seq<string>, b: string): string {
    if ts == [] then "" else (a + (ts[0] + b)) + Rounds(a, ts[1..], b)
  }

  lemma {:induction false} ItemsRun(a: string, y: string, b: string, items: seq<Frame>, home: Env, ts: seq<string>,
                                    mode: Mode)
    requires mode.Render? && |ts| == |items|
    requires forall i :: 0 <= i < |items| ==> Gives([items[i]] + home, y, ts[i])
    ensures RunItems([Literal(a), Insert(y)] + [Literal(b)], items, home, mode) == Result(Ok, Rounds(a, ts, b))
    decreases |items|
  {
    if items != [] {
      var inside := mode.(env := [items[0]] + home);
      var k: nat :| Means([items[0]] + home, y, k, Text(ts[0]));
      Resolves([items[0]] + home, y, k, Text(ts[0]));
      RunTwo(Literal(a), Insert(y), [Literal(b)], inside);
      RunText(b, inside);
      forall i | 0 <= i < |items| - 1 ensures Gives([items[1..][i]] + home, y, ts[1..][i]) {
        assert items[1..][i] == items[i + 1] && ts[1..][i] == ts[i + 1];
      }
      ItemsRun(a, y, b, items[1..], home, ts[1..], mode);
    }
  }

  /** `{{ for .x }}a{{ .y }}b{{ end }}` is `a`, what `y` means to the child, and `b`, once for each child: a child
      comes before the scope that binds `x` and those around it. */
  lemma Loop(p: string, x: string, a: string, y: string, b: string, q: string, env: Env, registry: map<string, string>,
             home: nat, items: seq<Frame>, ts: seq<string>)
    requires Clean(p) && Clean(a) && Clean(b) && Clean(q) && CleanName(x) && CleanName(y)
    requires home < |env| && Means(env, x, home, List(items)) && |ts| == |items|
    requires forall i :: 0 <= i < |items| ==> Gives([items[i]] + env[home..], y, ts[i])
    ensures Rendered(Then(p, ForOf(x), Then(a, SubstOf(y), Then(b, EndTag, q))), env, registry)
         == Result(Ok, p + (Rounds(a, ts, b) + q))
  {
    hide Then, ForOf, SubstOf, Whole, Rendered, Run, RunNode, RunItems, Means, Gives;
    LoopWhole(p, x, a, y, b, q);
    var nodes := [Literal(a), Insert(y)] + [Literal(b)];
    RenderedOf(Then(p, ForOf(x), Then(a, SubstOf(y), Then(b, EndTag, q))), p, Repeat(x, nodes), q, env, registry);
    var mode := Render(env, 0, registry);
    Resolves(env, x, home, List(items));
    RepeatRuns(x, nodes, items, env[home..], mode);
    ItemsRun(a, y, b, items, env[home..], ts, mode);
    BodySkips(a, y, b);
  }

  lemma RepeatRuns(x: string, nodes: seq<Node>, items: seq<Frame>, home: Env, mode: Mode)
    requires mode.Render? && Resolve(mode.env, x) == Some(Binding(List(items), home))
    ensures RunNode(Repeat(x, nodes), mode)
         == if items == [] then Run(nodes, Skip) else RunItems(nodes, items, home, mode)
  {
  }

  lemma BodySkips(a: string, y: string, b: string)
    ensures Run([Literal(a), Insert(y)] + [Literal(b)], Skip) == Result(Ok, "")
  {
    RunTwo(Literal(a), Insert(y), [Literal(b)], Skip);
    RunOne(Literal(b), Skip);
  }

  /** `n` times the same text. */
  function Times(a: string, n: nat): string {
    if n == 0 then "" else a + Times(a, n - 1)
  }

  lemma {:induction false} SameItems(a: string, items: seq<Frame>, home: Env, mode: Mode)
    requires mode.Render?
    ensures RunItems([Literal(a)], items, home, mode) == Result(Ok, Times(a, |items|))
    decreases |items|
  {
    if items != [] {
      RunText(a, mode.(env := [items[0]] + home));
      SameItems(a, items[1..], home, mode);
    }
  }

  /** `{{ for .x }}a{{ end }}` is `a` once for each child; it fails behind the text in front of it if nothing
      binds `x`, or if a text does. */
  lemma PlainLoop(p: string, x: string, a: string, q: string, env: Env, registry: map<string, string>)
    requires Clean(p) && Clean(a) && Clean(q) && CleanName(x)
    ensures forall k: nat, items :: Means(env, x, k, List(items)) ==>
      Rendered(Then(p, ForOf(x), Then(a, EndTag, q)), env, registry) == Result(Ok, p + (Times(a, |items|) + q))
    ensures forall k: nat, t :: Means(env, x, k, Text(t)) ==>
      Rendered(Then(p, ForOf(x), Then(a, EndTag, q)), env, registry) == Result(WrongKind, p)
    ensures Nowhere(env, x) ==> Rendered(Then(p, ForOf(x), Then(a, EndTag, q)), env, registry) == Result(MissingKey, p)
  {
    hide Then, ForOf, Whole, Rendered, Nowhere;
    PlainLoopWhole(p, x, a, q);
    RenderedOf(Then(p, ForOf(x), Then(a, EndTag, q)), p, Repeat(x, [Literal(a)]), q, env, registry);
    var mode := Render(env, 0, registry);
    Empty(p);
    Empty("");
    forall k: nat, v | Means(env, x, k, v) ensures Resolve(env, x) == Some(Binding(v, env[k..])) {
      Resolves(env, x, k, v);
    }
    forall k: nat, items | Means(env, x, k, List(items))
      ensures RunNode(Repeat(x, [Literal(a)]), mode) == Result(Ok, Times(a, |items|))
    {
      SameItems(a, items, env[k..], mode);
      RunText(a, mode);
    }
    if Nowhere(env, x) {
      ResolvesNothing(env, x);
    }
  }

  predicate LineEnd(eol: string) {
    eol == "" || eol == "\n" || eol == "\r\n"
  }

  /** `{{ $x }}` is the template of that name without its last line end. */
  lemma Inclusion(p: string, x: string, q: string, env: Env, registry: map<string, string>, k: nat, name: string,
                  text: string, eol: string)
    requires NoBrace(p) && NoBrace(q) && NoBrace(text) && CleanName(x) && LineEnd(eol)
    requires text != "" ==> text[|text| - 1] != '\n' && text[|text| - 1] != '\r'
    requires Means(env, x, k, Text(name)) && name in registry && registry[name] == text + eol
    ensures Rendered(Then(p, LeafOf(x), q), env, registry) == Result(Ok, p + (text + q))
  {
    hide Then, LeafOf, Rendered, Means, Chomp;
    LeafWhole(p, x, q);
    RenderedOf(Then(p, LeafOf(x), q), p, Leaf(x), q, env, registry);
    Resolves(env, x, k, Text(name));
    Chomped(text, eol);
    TextWhole(text);
    RunText(text, Render(env, 1, registry));
  }

  lemma TextWhole(text: string)
    requires NoBrace(text)
    ensures Whole(text) == LiteralOf(text)
  {
    assert text[0..] == text;
    ParseText(text, 0);
  }

  /** The name at `i` leads to a template that includes the name behind it; the last one leads to a text. */
  ghost predicate Link(env: Env, registry: map<string, string>, names: seq<string>, text: string, i: nat)
    requires i < |names|
  {
    && CleanName(names[i])
    && exists name :: Gives(env, names[i], name) && name in registry
         && registry[name] == if i + 1 < |names| then Then("", LeafOf(names[i + 1]), "") else text
  }

  ghost predicate Links(env: Env, registry: map<string, string>, names: seq<string>, text: string) {
    forall i :: 0 <= i < |names| ==> Link(env, registry, names, text, i)
  }

  lemma LeafRuns(env: Env, registry: map<string, string>, x: string, name: string, depth: nat)
    requires Gives(env, x, name) && name in registry
    ensures RunNode(Leaf(x), Render(env, depth, registry))
      == if depth < 32 then Run(Whole(Chomp(registry[name])), Render(env, depth + 1, registry))
         else Result(Recursion, "")
  {
    hide Whole, Chomp, Means, Resolve, Run;
    var k: nat :| Means(env, x, k, Text(name));
    Resolves(env, x, k, Text(name));
  }

  lemma LinkRun(x: string, mode: Mode)
    requires CleanName(x) && mode.Render?
    ensures Run(Whole(Chomp(Then("", LeafOf(x), ""))), mode) == RunNode(Leaf(x), mode)
  {
    hide Then, LeafOf, Whole, RunNode, Chomp, CleanName;
    NotChomped(x);
    LeafWhole("", x, "");
    RunTwo(Literal(""), Leaf(x), LiteralOf(""), mode);
    RunText("", mode);
    Empty(RunNode(Leaf(x), mode).out);
  }

  lemma LastRun(text: string, mode: Mode)
    requires mode.Render? && NoBrace(text)
    requires text != "" ==> text[|text| - 1] != '\n' && text[|text| - 1] != '\r'
    ensures Run(Whole(Chomp(text)), mode) == Result(Ok, text)
  {
    hide Whole, Chomp, Run;
    Chomped(text, "");
    assert text + "" == text;
    TextWhole(text);
    RunText(text, mode);
  }

  lemma {:induction false} LinkRuns(env: Env, registry: map<string, string>, names: seq<string>, text: string, i: nat,
                                    depth: nat)
    requires Links(env, registry, names, text) && i < |names| && NoBrace(text)
    requires text != "" ==> text[|text| - 1] != '\n' && text[|text| - 1] != '\r'
    ensures RunNode(Leaf(names[i]), Render(env, depth, registry))
      == if depth + |names| - i <= 32 then Result(Ok, text) else Result(Recursion, "")
    decreases |names| - i
  {
    hide Then, LeafOf, Whole, Run, RunNode, Chomp, CleanName, NoBrace, Gives;
    assert Link(env, registry, names, text, i);
    assert i + 1 < |names| ==> Link(env, registry, names, text, i + 1);
    var name :| Gives(env, names[i], name) && name in registry
      && registry[name] == if i + 1 < |names| then Then("", LeafOf(names[i + 1]), "") else text;
    var mode := Render(env, depth + 1, registry);
    LeafRuns(env, registry, names[i], name, depth);
    if depth < 32 {
      if i + 1 < |names| {
        LinkRun(names[i + 1], mode);
        LinkRuns(env, registry, names, text, i + 1, depth + 1);
      } else {
        LastRun(text, mode);
      }
    }
  }

  lemma NotChomped(x: string)
    ensures Chomp(Then("", LeafOf(x), "")) == Then("", LeafOf(x), "")
  {
    var s := Then("", LeafOf(x), "");
    assert s[|s| - 1] == '}';
  }

  /** Templates include each other up to 32 deep. */
  lemma Depth(env: Env, registry: map<string, string>, names: seq<string>, text: string)
    requires Links(env, registry, names, text) && names != [] && NoBrace(text)
    requires text != "" ==> text[|text| - 1] != '\n' && text[|text| - 1] != '\r'
    ensures Rendered(Then("", LeafOf(names[0]), ""), env, registry)
         == if |names| <= 32 then Result(Ok, text) else Result(Recursion, "")
  {
    hide Then, LeafOf, Whole, RunNode, Rendered;
    assert Link(env, registry, names, text, 0);
    LinkRuns(env, registry, names, text, 0, 0);
    LeafWhole("", names[0], "");
    RenderedOf(Then("", LeafOf(names[0]), ""), "", Leaf(names[0]), "", env, registry);
    Empty(text);
    assert "" + ("" + "") == "";
  }

  lemma Chomped(text: string, eol: string)
    requires LineEnd(eol) && (text != "" ==> text[|text| - 1] != '\n' && text[|text| - 1] != '\r')
    ensures Chomp(text + eol) == text
  {
    var src := text + eol;
    if eol == "" {
      assert src == text;
    } else if eol == "\n" {
      assert src[..|src| - 1] == text;
    } else {
      assert src[..|src| - 1] == text + "\r";
      assert (text + "\r")[..|text|] == text;
    }
  }

  // ---------------------------------------------------------------- malformed texts

  /** Braces that are not closed fail before the text in front of them is written. */
  lemma Unclosed(p: string, content: string, env: Env, registry: map<string, string>)
    requires NoBrace(p) && '}' !in content
    ensures Rendered(p + ("{{" + content), env, registry) == Result(Unterminated, "")
  {
    var s := p + ("{{" + content);
    assert s[0..] == s;
    PairAt(s, 0, p, '{', content);
    Further(s, 0, p, "{{" + content);
    Further(s, |p|, "{{", content);
    NeverClosed(s, |p| + 2);
    assert Parse(s, 0) == Block([Fail(Unterminated)], 0, false, false);
    RunOne(Fail(Unterminated), Render(env, 0, registry));
  }

  lemma NeverClosed(s: string, i: nat)
    requires i <= |s| && '}' !in s[i..]
    ensures NextPair(s, i, '}') == |s|
  {
    forall j | i <= j < |s| ensures !At(s, j, '}') {
      assert s[j] == s[i..][j - i];
    }
  }

  /** A stray `end` or `else` fails behind the text in front of it, whatever follows. */
  lemma Stray(p: string, q: string, env: Env, registry: map<string, string>)
    requires Clean(p) && (q != "" ==> !IsBlank(q[0]))
    ensures Rendered(Then(p, EndTag, q), env, registry) == Result(UnexpectedEnd, p)
    ensures Rendered(Then(p, ElseTag, q), env, registry) == Result(UnexpectedElse, p)
  {
    hide NextStep, Classify, Then, Parse;
    ReadsMarks();
    var mode := Render(env, 0, registry);
    StrayMark(p, EndTag, q, End);
    StrayMark(p, ElseTag, q, Else);
    RunText(p, mode);
    RunWithError([Literal(p)], UnexpectedEnd, mode);
    RunWithError([Literal(p)], UnexpectedElse, mode);
    Empty(p);
  }

  lemma StrayMark(p: string, content: string, q: string, d: Directive)
    requires Clean(p) && (q != "" ==> !IsBlank(q[0]))
    requires '}' !in content && Classify(content) == Some(d) && (d.Else? || d.End?)
    ensures Whole(Then(p, content, q)) == WithError([Literal(p)], if d.Else? then UnexpectedElse else UnexpectedEnd)
  {
    hide NextStep, Classify, Then, Parse;
    var s := Then(p, content, q);
    assert s[0..] == s;
    ParseMark(s, 0, p, content, q, d);
  }

  /** A condition that is not closed fails behind its body, if that is written at all. */
  lemma UnclosedCondition(p: string, x: string, negate: bool, a: string, env: Env, registry: map<string, string>)
    requires Clean(p) && Clean(a) && CleanName(x)
    ensures Rendered(Then(p, IfOf(x, negate), a), env, registry)
         == Result(UnterminatedIf, p + if negate then (if Holds(env, x) then "" else a)
                                       else (if Holds(env, x) then a else ""))
  {
    hide Then, IfOf, Whole, Rendered, Holds, Truthy;
    var yes := WithError(LiteralOf(a), UnterminatedIf);
    UnclosedWhole(p, x, negate, a);
    RenderedOf(Then(p, IfOf(x, negate), a), p, Choose(x, negate, yes, []), "", env, registry);
    var mode := Render(env, 0, registry);
    RunText(a, mode);
    RunWithError(LiteralOf(a), UnterminatedIf, mode);
    RunWithError(LiteralOf(a), UnterminatedIf, Skip);
    TruthMeans(env, x, negate);
    Empty(a);
  }

  lemma UnclosedWhole(p: string, x: string, negate: bool, a: string)
    requires Clean(p) && Clean(a) && CleanName(x)
    ensures Whole(Then(p, IfOf(x, negate), a))
         == [Literal(p), Choose(x, negate, WithError(LiteralOf(a), UnterminatedIf), [])] + LiteralOf("")
  {
    hide NextStep, Classify, IfOf, Then, Parse;
    var s := Then(p, IfOf(x, negate), a);
    assert s[0..] == s;
    ReadsIf(x, negate);
    CleanStep(s, 0, p, IfOf(x, negate), a, If(x, negate));
    ParseText(s, |s| - |a|);
    WholeOf(s, p, If(x, negate), |s| - |a|, "");
  }

  // ---------------------------------------------------------------- directives on lines of their own

  predicate Blanks(s: string) {
    forall i :: 0 <= i < |s| ==> s[i] == ' ' || s[i] == '\t'
  }

  /** Nothing, or whole lines. */
  predicate Lines(s: string) {
    s == "" || s[|s| - 1] == '\n'
  }

  lemma {:induction false} Stripped(front: string, indent: string, lineStart: bool)
    requires Lines(front) && Blanks(indent) && (front == "" ==> lineStart)
    ensures LStrip(front + indent, lineStart) == front && TrimIndent(front + indent) == front
    decreases |indent|
  {
    var run := front + indent;
    if indent == "" {
      assert run == front;
    } else {
      var less := indent[..|indent| - 1];
      assert run[..|run| - 1] == front + less && run[|run| - 1] == indent[|indent| - 1];
      Stripped(front, less, lineStart);
    }
  }

  lemma {:induction false} BlanksSkipped(s: string, i: nat, trail: string, rest: string)
    requires i <= |s| && s[i..] == trail + rest && Blanks(trail) && (rest != "" ==> rest[0] != ' ' && rest[0] != '\t')
    ensures SkipBlanks(s, i) == i + |trail| <= |s| && s[i + |trail|..] == rest
    decreases |trail|
  {
    Further(s, i, trail, rest);
    if trail != "" {
      assert s[i] == s[i..][0] == trail[0];
      assert s[i + 1..] == s[i..][1..] == trail[1..] + rest;
      BlanksSkipped(s, i + 1, trail[1..], rest);
    } else {
      assert i < |s| ==> s[i] == rest[0];
    }
  }

  lemma Swallowed(s: string, i: nat, trail: string, eol: string, rest: string)
    requires i <= |s| && s[i..] == trail + (eol + rest) && Blanks(trail) && (eol == "\n" || eol == "\r\n")
    ensures |rest| <= |s| && AfterBlock(s, i) == |s| - |rest| > 0 && s[|s| - |rest|..] == rest
    ensures s[|s| - |rest| - 1] == '\n'
  {
    BlanksSkipped(s, i, trail, eol + rest);
    var a := i + |trail|;
    assert s[a] == (eol + rest)[0];
    assert |eol| == 2 ==> s[a + 1] == (eol + rest)[1];
    Further(s, a, eol, rest);
  }

  /** A block directive that shares its line with white space only leaves nothing of the line behind. */
  lemma OwnLines(p: string, before: string, x: string, negate: bool, trail: string, a: string, indent: string,
                 after: string, eol: string, q: string, env: Env, registry: map<string, string>)
    requires NoBrace(p) && NoBrace(a) && NoBrace(q) && Lines(p) && Lines(a) && CleanName(x)
    requires Blanks(before) && Blanks(trail) && Blanks(indent) && Blanks(after) && (eol == "\n" || eol == "\r\n")
    ensures Rendered(Then(p + before, IfOf(x, negate), trail + (eol + Then(a + indent, EndTag, after + (eol + q)))),
                     env, registry)
         == Result(Ok, p + ((if negate then (if Holds(env, x) then "" else a)
                             else (if Holds(env, x) then a else "")) + q))
  {
    hide Then, IfOf, Whole, Rendered, Holds, Truthy;
    OwnLinesWhole(p, before, x, negate, trail, a, indent, after, eol, q);
    RenderedOf(Then(p + before, IfOf(x, negate), trail + (eol + Then(a + indent, EndTag, after + (eol + q)))), p,
               Choose(x, negate, [Literal(a)], []), q, env, registry);
    RunText(a, Render(env, 0, registry));
    TruthMeans(env, x, negate);
    Empty(a);
  }

  lemma OwnLinesWhole(p: string, before: string, x: string, negate: bool, trail: string, a: string, indent: string,
                      after: string, eol: string, q: string)
    requires NoBrace(p) && NoBrace(a) && NoBrace(q) && Lines(p) && Lines(a) && CleanName(x)
    requires Blanks(before) && Blanks(trail) && Blanks(indent) && Blanks(after) && (eol == "\n" || eol == "\r\n")
    ensures Whole(Then(p + before, IfOf(x, negate), trail + (eol + Then(a + indent, EndTag, after + (eol + q)))))
         == [Literal(p), Choose(x, negate, [Literal(a)], [])] + LiteralOf(q)
  {
    hide NextStep, Classify, IfOf, Then, LStrip, AfterBlock, Blanks, Lines;
    var last := after + (eol + q);
    var body := Then(a + indent, EndTag, last);
    var rest := trail + (eol + body);
    var s := Then(p + before, IfOf(x, negate), rest);
    NoBraceInBlanks(p, before);
    NoBraceInBlanks(a, indent);
    ReadsIf(x, negate);
    ReadsMarks();
    StepFound(s, 0, p + before, IfOf(x, negate), rest, If(x, negate));
    Stripped(p, before, true);
    Swallowed(s, |s| - |rest|, trail, eol, body);
    StepFound(s, |s| - |body|, a + indent, EndTag, last, End);
    Stripped(a, indent, true);
    Swallowed(s, |s| - |last|, after, eol, q);
    WholeOf(s, p, If(x, negate), |s| - |body|, q);
  }

  lemma NoBraceInBlanks(p: string, blanks: string)
    requires NoBrace(p) && Blanks(blanks)
    ensures NoBrace(p + blanks)
  {
  }
}
