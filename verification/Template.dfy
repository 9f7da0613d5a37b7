/** The one-pass template interpreter (tools/gen/sp_template.h:90-120, 203-507). It renders while it
    parses; here it is proved to do exactly what parsing to a tree and evaluating the tree does. */
module Template {
  import opened Paths

  // ---------------------------------------------------------------- values and scopes

  datatype Value = Text(text: string) | List(items: seq<Frame>)

  /** The names one scope binds. */
  datatype Frame = Frame(names: seq<string>, values: seq<Value>)

  /** A scope with its parents, innermost first. */
  type Env = seq<Frame>

  datatype Err = Ok | Unterminated | UnterminatedFor | UnterminatedIf | UnexpectedEnd | UnexpectedElse
               | BadDirective | MissingKey | WrongKind | MissingTemplate | Recursion

  const MAX_DEPTH := 32

  function Find(frame: Frame, name: string, from: nat): Option<Value>
    decreases |frame.names| - from
  {
    if from >= |frame.names| || from >= |frame.values| then None
    else if frame.names[from] == name then Some(frame.values[from])
    else Find(frame, name, from + 1)
  }

  /** What a name means, and the scopes from the one that binds it outwards: the parents of the scopes
      in a list. */
  datatype Binding = Binding(value: Value, home: Env)

  function Resolve(env: Env, name: string): Option<Binding> {
    if env == [] then None
    else
      match Find(env[0], name, 0)
      case Some(value) => Some(Binding(value, env))
      case None => Resolve(env[1..], name)
  }

  // ---------------------------------------------------------------- directives

  datatype Directive = Subst(name: string) | Include(name: string) | For(name: string) | If(name: string, negate: bool)
                     | Else | End
  {
    predicate Block() {
      For? || If? || Else? || End?
    }
  }

  predicate IsBlank(c: char) {
    c == ' ' || c == '\t' || c == '\r' || c == '\n'
  }

  function TrimFront(s: string): string {
    if s != "" && IsBlank(s[0]) then TrimFront(s[1..]) else s
  }

  function TrimBack(s: string): string {
    if s != "" && IsBlank(s[|s| - 1]) then TrimBack(s[..|s| - 1]) else s
  }

  function Trim(s: string): string {
    TrimBack(TrimFront(s))
  }

  predicate ValidName(name: string) {
    name != "" && forall i :: 0 <= i < |name| ==> !IsBlank(name[i])
  }

  function Keyword(s: string): string {
    if s == "" || s[0] == ' ' then "" else [s[0]] + Keyword(s[1..])
  }

  /** What stands behind the first blank. */
  function Operand(s: string): string {
    if s == "" then "" else if s[0] == ' ' then s[1..] else Operand(s[1..])
  }

  /** The name behind a leading mark. */
  function Marked(s: string, mark: char): Option<string> {
    if s != "" && s[0] == mark && ValidName(s[1..]) then Some(s[1..]) else None
  }

  /** `sp_template_classify`. */
  function Classify(content: string): Option<Directive> {
    var d := Trim(content);
    if d != "" && d[0] == '.' then
      (match Marked(d, '.') case Some(name) => Some(Subst(name)) case None => None)
    else if d != "" && d[0] == '$' then
      (match Marked(d, '$') case Some(name) => Some(Include(name)) case None => None)
    else
      var keyword, rest := Keyword(d), Trim(Operand(d));
      if keyword == "for" then
        (match Marked(rest, '.') case Some(name) => Some(For(name)) case None => None)
      else if keyword == "if" then
        var negate := rest != "" && rest[0] == '!';
        (match Marked(if negate then Trim(rest[1..]) else rest, '.')
         case Some(name) => Some(If(name, negate))
         case None => None)
      else if keyword == "else" && rest == "" then Some(Else)
      else if keyword == "end" && rest == "" then Some(End)
      else None
  }

  // ---------------------------------------------------------------- scanning

  predicate At(s: string, i: nat, c: char) {
    i + 1 < |s| && s[i] == c && s[i + 1] == c
  }

  /** Where the next pair of `c` stands, or the end of the text. */
  function NextPair(s: string, i: nat, c: char): (k: nat)
    requires i <= |s|
    ensures i <= k <= |s| && (k < |s| ==> At(s, k, c)) && (forall j :: i <= j < k ==> !At(s, j, c))
    decreases |s| - i
  {
    if i == |s| || At(s, i, c) then i else NextPair(s, i + 1, c)
  }

  function TrimIndent(run: string): string {
    if run != "" && (run[|run| - 1] == ' ' || run[|run| - 1] == '\t') then TrimIndent(run[..|run| - 1]) else run
  }

  /** `sp_template_lstrip_block`: the indentation in front of a block directive. */
  function LStrip(run: string, lineStart: bool): string {
    var front := TrimIndent(run);
    if front == "" then (if lineStart then "" else run)
    else if front[|front| - 1] != '\n' then run
    else front
  }

  function SkipBlanks(s: string, i: nat): (k: nat)
    requires i <= |s|
    ensures i <= k <= |s|
    decreases |s| - i
  {
    if i < |s| && (s[i] == ' ' || s[i] == '\t') then SkipBlanks(s, i + 1) else i
  }

  /** `sp_template_trim_after_block`: a block directive swallows the rest of its line when it is blank. */
  function AfterBlock(s: string, i: nat): (k: nat)
    requires i <= |s|
    ensures i <= k <= |s|
  {
    var a := SkipBlanks(s, i);
    var b := if a < |s| && s[a] == '\r' then a + 1 else a;
    if b < |s| && s[b] == '\n' then b + 1 else i
  }

  /** One run of literal text with the directive behind it. */
  datatype Step = Rest(text: string) | Broken(err: Err) | Found(text: string, directive: Directive, next: nat)

  function NextStep(s: string, i: nat): (r: Step)
    requires i < |s|
    ensures r.Found? ==> i < r.next <= |s|
  {
    var open := NextPair(s, i, '{');
    if open == |s| then Rest(s[i..])
    else
      var close := NextPair(s, open + 2, '}');
      if close == |s| then Broken(Unterminated)
      else
        match Classify(s[open + 2..close])
        case None => Broken(BadDirective)
        case Some(directive) =>
          if directive.Block() then
            Found(LStrip(s[i..open], i == 0 || s[i - 1] == '\n'), directive, AfterBlock(s, close + 2))
          else Found(s[i..open], directive, close + 2)
  }

  // ---------------------------------------------------------------- parsing to a tree

  /** A malformed template parses to a tree that fails where the text does. */
  datatype Node =
    | Literal(text: string) | Insert(name: string) | Leaf(name: string) | Repeat(name: string, body: seq<Node>)
                | Choose(name: string, negate: bool, yes: seq<Node>, no: seq<Node>) | Fail(err: Err)

  /** Nodes up to the directive that ends the block, where the text goes on, and how the block ended. */
  datatype Block = Block(nodes: seq<Node>, stop: nat, end: bool, els: bool)

  /** The error of a body that ended the wrong way. */
  function Ending(b: Block, unclosed: Err): Err {
    if b.els then UnexpectedElse else if !b.end then unclosed else Ok
  }

  function WithError(nodes: seq<Node>, err: Err): seq<Node> {
    if err.Ok? then nodes else nodes + [Fail(err)]
  }

  function Parse(s: string, i: nat): (b: Block)
    requires i <= |s|
    ensures i <= b.stop <= |s|
    decreases |s| - i, 0
  {
    if i == |s| then Block([], i, false, false)
    else
      match NextStep(s, i)
      case Rest(text) => Block([Literal(text)], |s|, false, false)
      case Broken(err) => Block([Fail(err)], i, false, false)
      case Found(text, directive, next) =>
        if directive.Else? || directive.End? then Block([Literal(text)], next, directive.End?, directive.Else?)
        else
          var inner := ParseDirective(s, directive, next);
          var rest := Parse(s, inner.stop);
          rest.(nodes := [Literal(text), inner.node] + rest.nodes)
  }

  /** A directive that stands for a node, with its body, and where the text goes on behind it. */
  datatype Inner = Inner(node: Node, stop: nat)

  function ParseDirective(s: string, directive: Directive, next: nat): (r: Inner)
    requires next <= |s| && !directive.Else? && !directive.End?
    ensures next <= r.stop <= |s|
    decreases |s| - next, 1
  {
    match directive
    case Subst(name) => Inner(Insert(name), next)
    case Include(name) => Inner(Leaf(name), next)
    case For(name) =>
      var body := Parse(s, next);
      Inner(Repeat(name, WithError(body.nodes, Ending(body, UnterminatedFor))), body.stop)
    case If(name, negate) =>
      var yes := Parse(s, next);
      if yes.els then
        var no := Parse(s, yes.stop);
        Inner(Choose(name, negate, yes.nodes, WithError(no.nodes, Ending(no, UnterminatedIf))), no.stop)
      else Inner(Choose(name, negate, WithError(yes.nodes, Ending(yes, UnterminatedIf)), []), yes.stop)
  }

  /** A whole template: it must not end in a stray `end` or `else`. */
  function Whole(s: string): seq<Node> {
    var b := Parse(s, 0);
    WithError(b.nodes, if b.els then UnexpectedElse else if b.end then UnexpectedEnd else Ok)
  }

  // ---------------------------------------------------------------- evaluating a tree

  /** Either only checking, or rendering in a scope at some depth of inclusion. */
  datatype Mode = Skip | Render(env: Env, depth: nat, registry: map<string, string>)

  datatype Result = Result(err: Err, out: string)

  /** One result behind another; nothing comes behind an error. */
  function Chain(a: Result, b: Result): Result {
    if a.err.Ok? then Result(b.err, a.out + b.out) else a
  }

  function Chomp(src: string): string {
    if src == "" || src[|src| - 1] != '\n' then src
    else
      var cut := src[..|src| - 1];
      if cut != "" && cut[|cut| - 1] == '\r' then cut[..|cut| - 1] else cut
  }

  function Fuel(mode: Mode): nat {
    if mode.Render? && mode.depth <= MAX_DEPTH then MAX_DEPTH - mode.depth + 1 else 0
  }

  function Truthy(env: Env, name: string, negate: bool): bool {
    var holds :=
      match Resolve(env, name)
      case None => false
      case Some(b) => if b.value.Text? then b.value.text != "" else b.value.items != [];
    holds != negate
  }

  function Run(nodes: seq<Node>, mode: Mode): Result
    decreases Fuel(mode), nodes, 0
  {
    if nodes == [] then Result(Ok, "") else Chain(RunNode(nodes[0], mode), Run(nodes[1..], mode))
  }

  function RunNode(node: Node, mode: Mode): Result
    decreases Fuel(mode), node, 0
  {
    match node
    case Literal(text) => Result(Ok, if mode.Skip? then "" else text)
    case Fail(err) => Result(err, "")
    case Insert(name) =>
      if mode.Skip? then Result(Ok, "")
      else
        (match Resolve(mode.env, name)
         case None => Result(MissingKey, "")
         case Some(b) => if b.value.Text? then Result(Ok, b.value.text) else Result(WrongKind, ""))
    case Leaf(name) =>
      if mode.Skip? then Result(Ok, "")
      else if mode.depth >= MAX_DEPTH then Result(Recursion, "")
      else
        (match Resolve(mode.env, name)
         case None => Result(MissingKey, "")
         case Some(b) =>
           if !b.value.Text? then Result(WrongKind, "")
           else if b.value.text !in mode.registry then Result(MissingTemplate, "")
           else Run(Whole(Chomp(mode.registry[b.value.text])), mode.(depth := mode.depth + 1)))
    case Repeat(name, body) =>
      if mode.Skip? then Run(body, Skip)
      else
        (match Resolve(mode.env, name)
         case None => Result(MissingKey, "")
         case Some(b) =>
           if !b.value.List? then Result(WrongKind, "")
           else if b.value.items == [] then Run(body, Skip)
           else RunItems(body, b.value.items, b.home, mode))
    case Choose(name, negate, yes, no) =>
      if mode.Skip? then Chain(Run(yes, Skip), Run(no, Skip))
      else if Truthy(mode.env, name, negate) then Chain(Run(yes, mode), Run(no, Skip))
      else Chain(Run(yes, Skip), Run(no, mode))
  }

  function RunItems(body: seq<Node>, items: seq<Frame>, home: Env, mode: Mode): Result
    requires mode.Render?
    decreases Fuel(mode), body, |items| + 1
  {
    if items == [] then Result(Ok, "")
    else Chain(Run(body, mode.(env := [items[0]] + home)), RunItems(body, items[1..], home, mode))
  }

  // ---------------------------------------------------------------- skipping and rendering agree

  lemma ChainOk(a: Result, b: Result)
    ensures Chain(a, b).err.Ok? <==> a.err.Ok? && b.err.Ok?
    ensures Chain(Result(Ok, ""), b) == b && Chain(a, Result(Ok, "")) == a
  {
    Empty(a.out);
    Empty(b.out);
  }

  lemma Empty(s: string)
    ensures "" + s == s && s + "" == s
  {
  }

  lemma ChainIsAssociative(a: Result, b: Result, c: Result)
    ensures Chain(Chain(a, b), c) == Chain(a, Chain(b, c))
  {
    assert (a.out + b.out) + c.out == a.out + (b.out + c.out);
  }

  /** Whatever renders without an error is well formed, in any scope, at any depth. */
  lemma {:induction false} RenderedIsClean(nodes: seq<Node>, mode: Mode)
    requires Run(nodes, mode).err.Ok?
    ensures Run(nodes, Skip).err.Ok?
    decreases nodes
  {
    if nodes != [] {
      NodeIsClean(nodes[0], mode);
      RenderedIsClean(nodes[1..], mode);
    }
  }

  lemma {:induction false} NodeIsClean(node: Node, mode: Mode)
    requires RunNode(node, mode).err.Ok?
    ensures RunNode(node, Skip).err.Ok?
    decreases node
  {
    if mode.Render? {
      match node
      case Repeat(name, body) =>
        var b := Resolve(mode.env, name).value;
        if b.value.items != [] {
          RenderedIsClean(body, mode.(env := [b.value.items[0]] + b.home));
        }
      case Choose(name, negate, yes, no) =>
        if Truthy(mode.env, name, negate) {
          RenderedIsClean(yes, mode);
        } else {
          RenderedIsClean(no, mode);
        }
      case _ =>
    }
  }

  /** What renders without an error from some position, in some scope, is skipped from there without an
      error and without output. Where either stops does not depend on the mode (`RenderBlock`). */
  lemma RenderedIsSkipped(s: string, i: nat, mode: Mode)
    requires i <= |s| && Run(Parse(s, i).nodes, mode).err.Ok?
    ensures Run(Parse(s, i).nodes, Skip) == Result(Ok, "")
  {
    RenderedIsClean(Parse(s, i).nodes, mode);
    SkipIsSilent(Parse(s, i).nodes);
  }

  lemma {:induction false} SkipIsSilent(nodes: seq<Node>)
    ensures Run(nodes, Skip).out == ""
    decreases nodes
  {
    if nodes != [] {
      SkipIsSilent(nodes[1..]);
      match nodes[0]
      case Repeat(name, body) => SkipIsSilent(body);
      case Choose(name, negate, yes, no) =>
        SkipIsSilent(yes);
        SkipIsSilent(no);
      case _ =>
    }
  }

  lemma {:induction false} RunWithError(nodes: seq<Node>, err: Err, mode: Mode)
    ensures Run(WithError(nodes, err), mode) == Chain(Run(nodes, mode), Result(err, ""))
    decreases nodes
  {
    ChainOk(Run(nodes, mode), Result(err, ""));
    if !err.Ok? {
      var all := nodes + [Fail(err)];
      if nodes != [] {
        RunWithError(nodes[1..], err, mode);
        assert all[1..] == WithError(nodes[1..], err);
        ChainIsAssociative(RunNode(nodes[0], mode), Run(nodes[1..], mode), Result(err, ""));
      } else {
        assert all[1..] == [];
        ChainOk(Result(err, ""), Result(Ok, ""));
      }
    }
  }

  /** The first two nodes of a block. */
  lemma RunTwo(a: Node, b: Node, rest: seq<Node>, mode: Mode)
    ensures Run([a, b] + rest, mode) == Chain(RunNode(a, mode), Chain(RunNode(b, mode), Run(rest, mode)))
  {
    var all := [a, b] + rest;
    assert all[1..][0] == b && all[1..][1..] == rest;
  }

  lemma RunOne(a: Node, mode: Mode)
    ensures Run([a], mode) == RunNode(a, mode)
  {
    assert [a][1..] == [];
    ChainOk(RunNode(a, mode), Result(Ok, ""));
  }

  // ---------------------------------------------------------------- the interpreter

  class Parser {
    const str: string
    var i: nat

    constructor (str: string)
      ensures this.str == str && i == 0
    {
      this.str := str;
      i := 0;
    }

    method Scan(c: char)
      requires i <= |str|
      modifies this
      ensures i == NextPair(str, old(i), c)
    {
      while i < |str| && !At(str, i, c)
        invariant i <= |str| && NextPair(str, old(i), c) == NextPair(str, i, c)
      {
        i := i + 1;
      }
    }

    method TrimAfterBlock()
      requires i <= |str|
      modifies this
      ensures i == AfterBlock(str, old(i))
    {
      var at := i;
      while at < |str| && (str[at] == ' ' || str[at] == '\t')
        invariant i <= at <= |str| && SkipBlanks(str, i) == SkipBlanks(str, at)
      {
        at := at + 1;
      }
      if at < |str| && str[at] == '\r' {
        at := at + 1;
      }
      if at < |str| && str[at] == '\n' {
        i := at + 1;
      }
    }

    /** The literal run and the directive behind it. */
    method TakeStep() returns (step: Step)
      requires i < |str|
      modifies this
      ensures step == NextStep(str, old(i)) && old(i) <= i <= |str|
      ensures step.Rest? ==> i == |str|
      ensures step.Found? ==> i == step.next
    {
      hide Classify, LStrip;
      var literal := i;
      Scan('{');
      var literalEnd := i;
      if i >= |str| {
        return Rest(str[literal..]);
      }
      i := i + 2;
      var content := i;
      Scan('}');
      if i >= |str| {
        return Broken(Unterminated);
      }
      var directive := Classify(str[content..i]);
      i := i + 2;
      if directive.None? {
        return Broken(BadDirective);
      }
      var run := str[literal..literalEnd];
      if directive.value.Block() {
        run := LStripBlock(run, literal == 0 || str[literal - 1] == '\n');
        TrimAfterBlock();
      }
      return Found(run, directive.value, i);
    }
  }

  method LStripBlock(run: string, lineStart: bool) returns (stripped: string)
    ensures stripped == LStrip(run, lineStart)
  {
    var tail := |run|;
    assert run[..tail] == run;
    while tail > 0 && (run[tail - 1] == ' ' || run[tail - 1] == '\t')
      invariant tail <= |run| && TrimIndent(run) == TrimIndent(run[..tail])
    {
      tail := tail - 1;
      assert run[..tail + 1][..tail] == run[..tail];
    }
    if tail == 0 {
      return if lineStart then "" else run;
    }
    if run[tail - 1] != '\n' {
      return run;
    }
    return run[..tail];
  }

  class Sink {
    var out: string

    constructor ()
      ensures out == ""
    {
      out := "";
    }

    method Write(mode: Mode, s: string)
      modifies this
      ensures out == old(out) + if mode.Skip? then "" else s
    {
      Empty(out);
      if mode.Render? {
        out := out + s;
      }
    }
  }

  /** What a call wrote and returned is `r` from where it began. */
  ghost predicate Wrote(before: string, after: string, err: Err, r: Result) {
    err == r.err && after == before + r.out
  }

  lemma WroteChain(before: string, mid: string, after: string, a: Result, err: Err, b: Result)
    requires Wrote(before, mid, Ok, a) && Wrote(mid, after, err, b)
    ensures Wrote(before, after, err, Chain(a, b))
  {
    assert (before + a.out) + b.out == before + (a.out + b.out);
  }

  /** `sp_template_render_block`. */
  method RenderBlock(p: Parser, w: Sink, mode: Mode) returns (err: Err, hitEnd: bool, hitElse: bool)
    requires p.i <= |p.str|
    modifies p, w
    ensures old(p.i) <= p.i <= |p.str|
    ensures Wrote(old(w.out), w.out, err, Run(Parse(p.str, old(p.i)).nodes, mode))
    ensures err.Ok? ==> Block([], p.i, hitEnd, hitElse) == Parse(p.str, old(p.i)).(nodes := [])
    decreases Fuel(mode), |p.str| - p.i, 6
  {
    hitEnd, hitElse := false, false;
    ghost var whole := Parse(p.str, p.i);
    ghost var done := Result(Ok, "");
    ChainOk(done, Run(whole.nodes, mode));
    Empty(w.out);
    while p.i < |p.str|
      invariant old(p.i) <= p.i <= |p.str| && !hitEnd && !hitElse
      invariant Wrote(old(w.out), w.out, Ok, done)
      invariant Run(whole.nodes, mode) == Chain(done, Run(Parse(p.str, p.i).nodes, mode))
      invariant Parse(p.str, p.i).(nodes := []) == whole.(nodes := [])
      decreases |p.str| - p.i
    {
      ghost var here, was := Parse(p.str, p.i), w.out;
      ghost var part: Result;
      var last;
      err, last, hitEnd, hitElse, part := RenderStep(p, w, mode);
      if last || !err.Ok? {
        WroteChain(old(w.out), was, w.out, done, err, Run(here.nodes, mode));
        return;
      }
      WroteChain(old(w.out), was, w.out, done, Ok, part);
      ChainIsAssociative(done, part, Run(Parse(p.str, p.i).nodes, mode));
      done := Chain(done, part);
    }
    ChainOk(done, Result(Ok, ""));
    return Ok, false, false;
  }

  /** One turn of the loop: a run of text and the directive behind it. `part` is what it amounts to when
      the block goes on. */
  method RenderStep(p: Parser, w: Sink, mode: Mode)
    returns (err: Err, last: bool, hitEnd: bool, hitElse: bool, ghost part: Result)
    requires p.i < |p.str|
    modifies p, w
    ensures old(p.i) <= p.i <= |p.str|
    ensures var here := Parse(p.str, old(p.i));
      if last || !err.Ok? then
        && Wrote(old(w.out), w.out, err, Run(here.nodes, mode))
        && (err.Ok? ==> Block([], p.i, hitEnd, hitElse) == here.(nodes := []))
      else
        && p.i > old(p.i) && !hitEnd && !hitElse && part.err.Ok? && Wrote(old(w.out), w.out, Ok, part)
        && Run(here.nodes, mode) == Chain(part, Run(Parse(p.str, p.i).nodes, mode))
        && Parse(p.str, p.i).(nodes := []) == here.(nodes := [])
    decreases Fuel(mode), |p.str| - p.i, 4
  {
    hitEnd, hitElse, last, part := false, false, false, Result(Ok, "");
    ghost var here, was := Parse(p.str, p.i), w.out;
    var step := p.TakeStep();
    if step.Rest? {
      w.Write(mode, step.text);
      RunOne(Literal(step.text), mode);
      return Ok, true, false, false, part;
    }
    if step.Broken? {
      RunOne(Fail(step.err), mode);
      Empty(w.out);
      return step.err, true, false, false, part;
    }
    w.Write(mode, step.text);
    ghost var text := RunNode(Literal(step.text), mode);
    if step.directive.Else? || step.directive.End? {
      RunOne(Literal(step.text), mode);
      return Ok, true, step.directive.End?, step.directive.Else?, part;
    }
    ghost var mid, inner := w.out, ParseDirective(p.str, step.directive, step.next);
    ghost var node := RunNode(inner.node, mode);
    err := RenderDirective(p, w, mode, step.directive);
    ghost var rest := Run(Parse(p.str, inner.stop).nodes, mode);
    RunTwo(Literal(step.text), inner.node, Parse(p.str, inner.stop).nodes, mode);
    WroteChain(was, mid, w.out, text, err, node);
    ChainIsAssociative(text, node, rest);
    part := Chain(text, node);
  }

  /** A body that must end in `end`. */
  method RenderBody(p: Parser, w: Sink, mode: Mode, unclosed: Err) returns (err: Err)
    requires p.i <= |p.str| && !unclosed.Ok?
    modifies p, w
    ensures old(p.i) <= p.i <= |p.str|
    ensures var body := Parse(p.str, old(p.i));
      && Wrote(old(w.out), w.out, err, Run(WithError(body.nodes, Ending(body, unclosed)), mode))
      && (err.Ok? ==> p.i == body.stop)
    decreases Fuel(mode), |p.str| - p.i, 7
  {
    ghost var body := Parse(p.str, p.i);
    RunWithError(body.nodes, Ending(body, unclosed), mode);
    var bodyEnd, bodyElse;
    err, bodyEnd, bodyElse := RenderBlock(p, w, mode);
    ChainOk(Run(body.nodes, mode), Result(Ending(body, unclosed), ""));
    Empty(Run(body.nodes, mode).out);
    if err.Ok? {
      if bodyElse {
        err := UnexpectedElse;
      } else if !bodyEnd {
        err := unclosed;
      }
    }
  }

  /** The switch of `sp_template_render_block`, for the directives that stand for a node. */
  method RenderDirective(p: Parser, w: Sink, mode: Mode, directive: Directive) returns (err: Err)
    requires p.i <= |p.str| && !directive.Else? && !directive.End?
    modifies p, w
    ensures old(p.i) <= p.i <= |p.str|
    ensures var inner := ParseDirective(p.str, directive, old(p.i));
      Wrote(old(w.out), w.out, err, RunNode(inner.node, mode)) && (err.Ok? ==> p.i == inner.stop)
    decreases Fuel(mode), |p.str| - p.i, 9
  {
    Empty(w.out);
    match directive
    case Subst(name) =>
      if mode.Skip? { return Ok; }
      var b := Resolve(mode.env, name);
      if b.None? { return MissingKey; }
      if !b.value.value.Text? { return WrongKind; }
      w.Write(mode, b.value.value.text);
      return Ok;
    case Include(name) =>
      err := RenderLeaf(w, mode, name);
    case For(name) =>
      err := RenderFor(p, w, mode, name);
    case If(name, negate) =>
      err := RenderIf(p, w, mode, name, negate);
  }

  method RenderLeaf(w: Sink, mode: Mode, name: string) returns (err: Err)
    modifies w
    ensures Wrote(old(w.out), w.out, err, RunNode(Leaf(name), mode))
    decreases Fuel(mode), 0, 0
  {
    Empty(w.out);
    if mode.Skip? { return Ok; }
    if mode.depth >= MAX_DEPTH { return Recursion; }
    var b := Resolve(mode.env, name);
    if b.None? { return MissingKey; }
    if !b.value.value.Text? { return WrongKind; }
    if b.value.value.text !in mode.registry { return MissingTemplate; }
    var leaf := new Parser(Chomp(mode.registry[b.value.value.text]));
    err := RenderWhole(leaf, w, mode.(depth := mode.depth + 1));
  }

  method RenderWhole(p: Parser, w: Sink, mode: Mode) returns (err: Err)
    requires p.i == 0
    modifies p, w
    ensures Wrote(old(w.out), w.out, err, Run(Whole(p.str), mode))
    decreases Fuel(mode), |p.str|, 7
  {
    ghost var b := Parse(p.str, 0);
    ghost var ending := if b.els then UnexpectedElse else if b.end then UnexpectedEnd else Ok;
    RunWithError(b.nodes, ending, mode);
    var hitEnd, hitElse;
    err, hitEnd, hitElse := RenderBlock(p, w, mode);
    Empty(Run(b.nodes, mode).out);
    if err.Ok? {
      if hitElse {
        err := UnexpectedElse;
      } else if hitEnd {
        err := UnexpectedEnd;
      }
    }
  }

  method RenderFor(p: Parser, w: Sink, mode: Mode, name: string) returns (err: Err)
    requires p.i <= |p.str|
    modifies p, w
    ensures old(p.i) <= p.i <= |p.str|
    ensures var inner := ParseDirective(p.str, For(name), old(p.i));
      Wrote(old(w.out), w.out, err, RunNode(inner.node, mode)) && (err.Ok? ==> p.i == inner.stop)
    decreases Fuel(mode), |p.str| - p.i, 8
  {
    Empty(w.out);
    if mode.Skip? {
      err := RenderBody(p, w, mode, UnterminatedFor);
      return;
    }
    var b := Resolve(mode.env, name);
    if b.None? { return MissingKey; }
    if !b.value.value.List? { return WrongKind; }
    var items := b.value.value.items;
    if items == [] {
      err := RenderBody(p, w, Skip, UnterminatedFor);
      return;
    }
    ghost var nodes := ParseDirective(p.str, For(name), p.i).node.body;
    var body := p.i;
    ghost var done := Result(Ok, "");
    ChainOk(done, RunItems(nodes, items, b.value.home, mode));
    for child := 0 to |items|
      invariant body <= p.i <= |p.str| && Wrote(old(w.out), w.out, Ok, done)
      invariant RunItems(nodes, items, b.value.home, mode)
        == Chain(done, RunItems(nodes, items[child..], b.value.home, mode))
      invariant child > 0 ==> p.i == Parse(p.str, body).stop
    {
      p.i := body;
      ghost var was := w.out;
      var inside := mode.(env := [items[child]] + b.value.home);
      err := RenderBody(p, w, inside, UnterminatedFor);
      ghost var round, others := Run(nodes, inside), RunItems(nodes, items[child + 1..], b.value.home, mode);
      assert items[child..][1..] == items[child + 1..];
      WroteChain(old(w.out), was, w.out, done, err, round);
      ChainIsAssociative(done, round, others);
      if !err.Ok? {
        return;
      }
      done := Chain(done, round);
    }
    ChainOk(done, Result(Ok, ""));
    assert items[|items|..] == [];
    err := Ok;
  }

  /** Which branch of a condition is rendered: one of them at most. */
  function FirstMode(mode: Mode, name: string, negate: bool): Mode {
    if mode.Render? && Truthy(mode.env, name, negate) then mode else Skip
  }

  function SecondMode(mode: Mode, name: string, negate: bool): Mode {
    if mode.Render? && Truthy(mode.env, name, negate) then Skip else mode
  }

  lemma ChooseRuns(name: string, negate: bool, yes: seq<Node>, no: seq<Node>, mode: Mode)
    ensures RunNode(Choose(name, negate, yes, no), mode)
      == Chain(Run(yes, FirstMode(mode, name, negate)), Run(no, SecondMode(mode, name, negate)))
  {
  }

  /** A condition runs the branches it is written with, one behind the other. */
  lemma IfRuns(s: string, i: nat, mode: Mode, name: string, negate: bool)
    requires i <= |s|
    ensures var yes, first, second := Parse(s, i), FirstMode(mode, name, negate), SecondMode(mode, name, negate);
      RunNode(ParseDirective(s, If(name, negate), i).node, mode) == Chain(Run(yes.nodes, first),
        if yes.els then var no := Parse(s, yes.stop); Run(WithError(no.nodes, Ending(no, UnterminatedIf)), second)
        else Result(if yes.end then Ok else UnterminatedIf, ""))
  {
    var yes, first := Parse(s, i), FirstMode(mode, name, negate);
    if yes.els {
      var no := Parse(s, yes.stop);
      ChooseRuns(name, negate, yes.nodes, WithError(no.nodes, Ending(no, UnterminatedIf)), mode);
    } else {
      ChooseRuns(name, negate, WithError(yes.nodes, Ending(yes, UnterminatedIf)), [], mode);
      RunWithError(yes.nodes, Ending(yes, UnterminatedIf), first);
      ChainOk(Run(WithError(yes.nodes, Ending(yes, UnterminatedIf)), first), Result(Ok, ""));
    }
  }

  method RenderIf(p: Parser, w: Sink, mode: Mode, name: string, negate: bool) returns (err: Err)
    requires p.i <= |p.str|
    modifies p, w
    ensures old(p.i) <= p.i <= |p.str|
    ensures var inner := ParseDirective(p.str, If(name, negate), old(p.i));
      Wrote(old(w.out), w.out, err, RunNode(inner.node, mode)) && (err.Ok? ==> p.i == inner.stop)
    decreases Fuel(mode), |p.str| - p.i, 8
  {
    IfRuns(p.str, p.i, mode, name, negate);
    var truthy := mode.Render? && Truthy(mode.env, name, negate);
    var first := if truthy then mode else Skip;
    var second := if truthy then Skip else mode;
    ghost var was, yes := w.out, Parse(p.str, p.i);
    var bodyEnd, bodyElse;
    err, bodyEnd, bodyElse := RenderBlock(p, w, first);
    if !err.Ok? {
      return;
    }
    ghost var mid := w.out;
    if bodyElse {
      ghost var no := Parse(p.str, p.i);
      err := RenderBody(p, w, second, UnterminatedIf);
      WroteChain(was, mid, w.out, Run(yes.nodes, first), err,
        Run(WithError(no.nodes, Ending(no, UnterminatedIf)), second));
      return;
    }
    err := if bodyEnd then Ok else UnterminatedIf;
    Empty(mid);
    WroteChain(was, mid, w.out, Run(yes.nodes, first), err, Result(err, ""));
  }

  /** What rendering a template comes to: parse to a tree, then evaluate it. */
  function Rendered(tmpl: string, env: Env, registry: map<string, string>): Result {
    Run(Whole(tmpl), Render(env, 0, registry))
  }

  /** `sp_template_render`. What it writes is said by the laws of `TemplateLaws`. */
  method RenderTemplate(tmpl: string, env: Env, registry: map<string, string>) returns (err: Err, out: string)
    ensures Result(err, out) == Rendered(tmpl, env, registry)
  {
    var p := new Parser(tmpl);
    var w := new Sink();
    err := RenderWhole(p, w, Render(env, 0, registry));
    out := w.out;
    Empty(Run(Whole(tmpl), Render(env, 0, registry)).out);
  }
}
