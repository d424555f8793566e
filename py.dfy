/** The Python code generator (metascript/transpiler_py.py): one statement per
    line, nested bodies four spaces deeper, `range` loops kept as Python
    `for` loops and a `match` lowered to an `if`/`elif` chain over a variable
    holding the subject. Macros are expanded first; when expansion fails the
    unexpanded tree is written instead.

    The lowering of an agent call to the `frontend` or `backend` agent asks
    those agents at translation time and is a parameter here (`lower`): it
    receives the agent, the payload and the indentation level. */
module TranspilePy {
  import opened Wrappers
  import opened Text
  import opened Ast
  import opened Printing
  import opened Macros
  import opened MacroFacts

  /** String literals are written as Python's `repr` writes them; unknown expressions are `None`. */
  const PyStyle := Style(Repr, "None")

  /** `_emit_expr(e)`. */
  function EmitExpr(e: Expr): string {
    ShowExpr(PyStyle, e)
  }

  /** The translation of an agent call to a known agent, at an indentation level. */
  type AgentLowering = (string, string, nat) -> string

  predicate KnownAgent(agent: string) {
    agent == "frontend" || agent == "backend"
  }

  const MatchValue := "__ms_match_val"

  const Unsupported := "# unsupported-stmt"

  // ---------------------------------------------------------------------------
  // _emit_stmt

  /** The `for` line: a `range` call as it is, an integer `N` as `range(N)`,
      any other end iterated directly. */
  function ForHead(v: string, end: Expr): string {
    if end.FunctionCall? && end.name == "range" then "for " + v + " in " + EmitExpr(end) + ":"
    else if end.LiteralInt? then "for " + v + " in range(" + EmitExpr(end) + "):"
    else "for " + v + " in " + EmitExpr(end) + ":"
  }

  function DefHead(name: string, params: seq<string>, isAsync: bool): string {
    (if isAsync then "async " else "") + "def " + name + "(" + Join(params, ", ") + "):"
  }

  /** The condition and the bindings that test a pattern in a `match`: only
      integer literals, the wildcard and names are understood. */
  datatype PatternTest = PatternTest(cond: string, binds: seq<string>)

  function PatternTestOf(p: Pattern): PatternTest {
    if p.LiteralPattern? && p.lit.LiteralInt? then PatternTest(MatchValue + " == " + IntToString(p.lit.num), [])
    else if p.WildcardPattern? then PatternTest("True", [])
    else if p.NamePattern? then PatternTest("True", [p.name + " = " + MatchValue])
    else PatternTest("False", [])
  }

  /** `_emit_stmt(n, indent)`. */
  function EmitStmt(lower: AgentLowering, n: Stmt, indent: nat): string
    decreases n
  {
    var pad := Pad(indent);
    match n
    case Say(t) => pad + ("print(" + EmitExpr(t) + ")")
    case Print(t) => pad + ("print(" + EmitExpr(t) + ")")
    case Assign(name, v) => pad + (name + " = " + EmitExpr(v))
    case FunctionDef(name, params, body, isAsync) =>
      pad + DefHead(name, params, isAsync) + "\n"
      + (if body != [] then Block(lower, body, indent + 1) else pad + "    pass")
    case Return(v) => pad + ("return " + EmitExpr(v))
    case ForLoop(v, end, body) => pad + ForHead(v, end) + "\n" + Block(lower, body, indent + 1)
    case If(c, body, orelse) =>
      pad + ("if " + EmitExpr(c) + ":") + "\n" + Block(lower, body, indent + 1)
      + (if HasElse(orelse) then "\n" + (pad + "else:") + "\n" + Block(lower, orelse.stmts, indent + 1) else "")
    case ExprStmt(e) => if e.FunctionCall? then pad + EmitExpr(e) else pad + Unsupported
    case Match(subject, cases) =>
      Join([pad + (MatchValue + " = " + EmitExpr(subject))] + CaseLines(lower, cases, indent, true), "\n")
    case AgentCall(agent, payload) => if KnownAgent(agent) then lower(agent, payload, indent) else pad + Unsupported
    case While(_, _) => pad + Unsupported
    case DoBlock(_) => pad + Unsupported
    case MacroDef(_, _, _) => pad + Unsupported
    case MacroCall(_, _) => pad + Unsupported
  }

  /** The statements of a body at `indent`, joined by line breaks. */
  function Block(lower: AgentLowering, ss: seq<Stmt>, indent: nat): string
    decreases ss, 1
  {
    Join(EmitAll(lower, ss, indent), "\n")
  }

  function EmitAll(lower: AgentLowering, ss: seq<Stmt>, indent: nat): (r: seq<string>)
    ensures |r| == |ss|
    ensures forall k :: 0 <= k < |ss| ==> r[k] == EmitStmt(lower, ss[k], indent)
    decreases ss, 0
  {
    if ss == [] then [] else [EmitStmt(lower, ss[0], indent)] + EmitAll(lower, ss[1..], indent)
  }

  /** The lines of one case: `if`/`elif` with the test, the bindings one level
      deeper, then the body one level deeper. */
  function CaseBlock(lower: AgentLowering, c: MatchCase, indent: nat, first: bool): seq<string>
    decreases c
  {
    var pad := Pad(indent);
    var t := PatternTestOf(c.pattern);
    [pad + ((if first then "if" else "elif") + " " + t.cond + ":")]
    + BindLines(t.binds, indent)
    + EmitAll(lower, c.body, indent + 1)
  }

  function BindLines(binds: seq<string>, indent: nat): (r: seq<string>)
    ensures |r| == |binds|
    ensures forall k :: 0 <= k < |binds| ==> r[k] == Pad(indent) + "    " + binds[k]
  {
    seq(|binds|, k requires 0 <= k < |binds| => Pad(indent) + "    " + binds[k])
  }

  function CaseLines(lower: AgentLowering, cs: seq<MatchCase>, indent: nat, first: bool): seq<string>
    decreases cs
  {
    if cs == [] then [] else CaseBlock(lower, cs[0], indent, first) + CaseLines(lower, cs[1..], indent, false)
  }

  /** The `Match` branch of `_emit_stmt`, which appends line by line and
      clears a `first` flag after the first case. */
  method EmitMatch(lower: AgentLowering, subject: Expr, cases: seq<MatchCase>, indent: nat) returns (s: string)
    ensures s == EmitStmt(lower, Match(subject, cases), indent)
  {
    var pad := Pad(indent);
    var start := [pad + (MatchValue + " = " + EmitExpr(subject))];
    var outLines := start;
    var first := true;
    var i := 0;
    while i < |cases|
      invariant i <= |cases|
      invariant first <==> i == 0
      invariant outLines + CaseLines(lower, cases[i..], indent, first) == start + CaseLines(lower, cases, indent, true)
    {
      CaseStep(lower, cases, indent, i, first);
      var t := PatternTestOf(cases[i].pattern);
      var prefix := if first then "if" else "elif";
      var block := [pad + (prefix + " " + t.cond + ":")] + BindLines(t.binds, indent) + EmitAll(lower, cases[i].body, indent + 1);
      assert block == CaseBlock(lower, cases[i], indent, first);
      Append(outLines, block, CaseLines(lower, cases[i + 1..], indent, false));
      first := false;
      outLines := outLines + block;
      i := i + 1;
    }
    assert CaseLines(lower, cases[i..], indent, first) == [];
    assert outLines == start + CaseLines(lower, cases, indent, true);
    s := Join(outLines, "\n");
  }

  lemma CaseStep(lower: AgentLowering, cases: seq<MatchCase>, indent: nat, i: nat, first: bool)
    requires i < |cases|
    ensures CaseLines(lower, cases[i..], indent, first)
         == CaseBlock(lower, cases[i], indent, first) + CaseLines(lower, cases[i + 1..], indent, false)
  {
    assert cases[i..][1..] == cases[i + 1..];
  }

  lemma Append<T>(a: seq<T>, b: seq<T>, c: seq<T>)
    ensures a + (b + c) == (a + b) + c
  {
  }

  const Header := "# Transpiled by metascript transpiler_py\n"

  /** The tree that is written: the expanded program, or the program itself
      when expansion fails. */
  function Expanded(p: Program, fuel: nat): Program {
    match ExpandMacros(p, fuel)
    case Ok(e) => e
    case Err(_) => p
  }

  /** `transpile(program)`: the header, the statements at indentation 0 one
      per line, and a final line break. */
  function Transpile(lower: AgentLowering, p: Program, fuel: nat): string {
    Header + Join(EmitAll(lower, Expanded(p, fuel).statements, 0), "\n") + "\n"
  }

  // ---------------------------------------------------------------------------
  // The layout of the output, line by line

  /** One line of output: text at an indentation level, an empty line (what an
      empty body leaves after its header), or what an agent call became. */
  datatype Line = Line(depth: nat, text: string) | Blank | Agent(text: string)

  function Render(l: Line): string {
    match l
    case Line(d, t) => Pad(d) + t
    case Blank => ""
    case Agent(t) => t
  }

  function RenderAll(ls: seq<Line>): (r: seq<string>)
    ensures |r| == |ls|
    ensures forall k :: 0 <= k < |ls| ==> r[k] == Render(ls[k])
  {
    seq(|ls|, k requires 0 <= k < |ls| => Render(ls[k]))
  }

  /** The text of a sequence of lines. */
  function Layout(ls: seq<Line>): string {
    Join(RenderAll(ls), "\n")
  }

  /** A line at indentation `d` or deeper, a blank line or an agent's text. */
  predicate AtLeast(l: Line, d: nat) {
    l.Line? ==> l.depth >= d
  }

  /** The lines a statement at indentation `d` occupies: its header at `d` and
      the lines of its nested bodies one level deeper, every one at `d` or deeper. */
  function StmtLines(lower: AgentLowering, n: Stmt, d: nat): (r: seq<Line>)
    ensures r != []
    ensures forall k :: 0 <= k < |r| ==> AtLeast(r[k], d)
    decreases n
  {
    match n
    case Say(t) => [Line(d, "print(" + EmitExpr(t) + ")")]
    case Print(t) => [Line(d, "print(" + EmitExpr(t) + ")")]
    case Assign(name, v) => [Line(d, name + " = " + EmitExpr(v))]
    case FunctionDef(name, params, body, isAsync) =>
      [Line(d, DefHead(name, params, isAsync))] + (if body != [] then BodyLines(lower, body, d + 1) else [Line(d + 1, "pass")])
    case Return(v) => [Line(d, "return " + EmitExpr(v))]
    case ForLoop(v, end, body) => [Line(d, ForHead(v, end))] + BlockLines(lower, body, d + 1)
    case If(c, body, orelse) =>
      [Line(d, "if " + EmitExpr(c) + ":")] + BlockLines(lower, body, d + 1)
      + (if HasElse(orelse) then [Line(d, "else:")] + BodyLines(lower, orelse.stmts, d + 1) else [])
    case ExprStmt(e) => if e.FunctionCall? then [Line(d, EmitExpr(e))] else [Line(d, Unsupported)]
    case Match(subject, cases) => [Line(d, MatchValue + " = " + EmitExpr(subject))] + CaseLayout(lower, cases, d, true)
    case AgentCall(agent, payload) => if KnownAgent(agent) then [Agent(lower(agent, payload, d))] else [Line(d, Unsupported)]
    case While(_, _) => [Line(d, Unsupported)]
    case DoBlock(_) => [Line(d, Unsupported)]
    case MacroDef(_, _, _) => [Line(d, Unsupported)]
    case MacroCall(_, _) => [Line(d, Unsupported)]
  }

  /** The lines of the statements of a body, one after the other. */
  function BodyLines(lower: AgentLowering, ss: seq<Stmt>, d: nat): (r: seq<Line>)
    ensures r == [] <==> ss == []
    ensures forall k :: 0 <= k < |r| ==> AtLeast(r[k], d)
    decreases ss, 0
  {
    if ss == [] then [] else StmtLines(lower, ss[0], d) + BodyLines(lower, ss[1..], d)
  }

  /** A body after a header: an empty one leaves an empty line. */
  function BlockLines(lower: AgentLowering, ss: seq<Stmt>, d: nat): (r: seq<Line>)
    ensures r != []
    ensures forall k :: 0 <= k < |r| ==> AtLeast(r[k], d)
    decreases ss, 1
  {
    if ss == [] then [Blank] else BodyLines(lower, ss, d)
  }

  function CaseLayout(lower: AgentLowering, cs: seq<MatchCase>, d: nat, first: bool): (r: seq<Line>)
    ensures r == [] <==> cs == []
    ensures forall k :: 0 <= k < |r| ==> AtLeast(r[k], d)
    decreases cs
  {
    if cs == [] then []
    else
      var t := PatternTestOf(cs[0].pattern);
      [Line(d, (if first then "if" else "elif") + " " + t.cond + ":")]
      + BindLayout(t.binds, d + 1)
      + BodyLines(lower, cs[0].body, d + 1)
      + CaseLayout(lower, cs[1..], d, false)
  }

  function BindLayout(binds: seq<string>, d: nat): (r: seq<Line>)
    ensures |r| == |binds|
    ensures forall k :: 0 <= k < |binds| ==> r[k] == Line(d, binds[k])
  {
    seq(|binds|, k requires 0 <= k < |binds| => Line(d, binds[k]))
  }

  // ---------------------------------------------------------------------------
  // The text of a statement is the layout of its lines

  lemma {:induction false} JoinAppend(a: seq<string>, b: seq<string>, sep: string)
    requires a != [] && b != []
    ensures Join(a + b, sep) == Join(a, sep) + sep + Join(b, sep)
    decreases |a|
  {
    assert (a + b)[0] == a[0];
    if |a| == 1 {
      assert (a + b)[1..] == b;
    } else {
      assert (a + b)[1..] == a[1..] + b;
      JoinAppend(a[1..], b, sep);
    }
  }

  lemma LayoutAppend(a: seq<Line>, b: seq<Line>)
    requires a != [] && b != []
    ensures Layout(a + b) == Layout(a) + "\n" + Layout(b)
  {
    assert RenderAll(a + b) == RenderAll(a) + RenderAll(b);
    JoinAppend(RenderAll(a), RenderAll(b), "\n");
  }

  lemma LayoutOne(l: Line)
    ensures Layout([l]) == Render(l)
  {
    assert RenderAll([l]) == [Render(l)];
  }

  /** Four spaces more than `Pad(d)` is `Pad(d + 1)`. */
  lemma Deeper(d: nat, t: string)
    ensures Pad(d + 1) + t == Pad(d) + "    " + t
  {
    PadStep(d);
  }

  /** The text `_emit_stmt` writes for a statement at indentation `d` is the
      layout of `StmtLines`: one header line at `d`, the lines of nested
      bodies one level deeper, empty lines where a body is empty and the text
      of agent calls as the agent lowering gave it. */
  lemma {:induction false} Rendered(lower: AgentLowering, n: Stmt, d: nat)
    ensures EmitStmt(lower, n, d) == Layout(StmtLines(lower, n, d))
    decreases n, 2
  {
    match n
    case FunctionDef(_, _, _, _) => RenderedDef(lower, n, d);
    case ForLoop(_, _, _) => RenderedFor(lower, n, d);
    case If(_, _, _) => RenderedIf(lower, n, d);
    case Match(_, _) => RenderedMatch(lower, n, d);
    case _ => LayoutOne(StmtLines(lower, n, d)[0]);
  }

  lemma {:induction false} RenderedDef(lower: AgentLowering, n: Stmt, d: nat)
    requires n.FunctionDef?
    ensures EmitStmt(lower, n, d) == Layout(StmtLines(lower, n, d))
    decreases n, 1
  {
    if n.body != [] {
      DefBodyRendered(lower, n, d);
    } else {
      PassRendered(d, DefHead(n.name, n.params, n.isAsync));
    }
  }

  /** A definition line and the statements of its body. */
  lemma {:induction false} DefBodyRendered(lower: AgentLowering, n: Stmt, d: nat)
    requires n.FunctionDef? && n.body != []
    ensures Layout([Line(d, DefHead(n.name, n.params, n.isAsync))] + BodyLines(lower, n.body, d + 1))
      == Pad(d) + DefHead(n.name, n.params, n.isAsync) + "\n" + Block(lower, n.body, d + 1)
    decreases n, 0
  {
    var head := Line(d, DefHead(n.name, n.params, n.isAsync));
    LayoutOne(head);
    BodyRendered(lower, n.body, d + 1);
    LayoutAppend([head], BodyLines(lower, n.body, d + 1));
  }

  /** A definition line over an empty body, which is written as `pass`. */
  lemma PassRendered(d: nat, h: string)
    ensures Layout([Line(d, h)] + [Line(d + 1, "pass")]) == Pad(d) + h + "\n" + (Pad(d) + "    pass")
  {
    LayoutOne(Line(d, h));
    LayoutOne(Line(d + 1, "pass"));
    LayoutAppend([Line(d, h)], [Line(d + 1, "pass")]);
    Deeper(d, "pass");
    assert Pad(d) + "    " + "pass" == Pad(d) + "    pass";
  }

  lemma {:induction false} RenderedFor(lower: AgentLowering, n: Stmt, d: nat)
    requires n.ForLoop?
    ensures EmitStmt(lower, n, d) == Layout(StmtLines(lower, n, d))
    decreases n, 1
  {
    var head := Line(d, ForHead(n.loopVar, n.end));
    LayoutOne(head);
    BlockRendered(lower, n.body, d + 1);
    LayoutAppend([head], BlockLines(lower, n.body, d + 1));
  }

  lemma {:induction false} RenderedIf(lower: AgentLowering, n: Stmt, d: nat)
    requires n.If?
    ensures EmitStmt(lower, n, d) == Layout(StmtLines(lower, n, d))
    decreases n, 1
  {
    var head := [Line(d, "if " + EmitExpr(n.cond) + ":")] + BlockLines(lower, n.body, d + 1);
    var x := Pad(d) + ("if " + EmitExpr(n.cond) + ":") + "\n" + Block(lower, n.body, d + 1);
    ThenRendered(lower, n, d);
    if HasElse(n.orelse) {
      var other := [Line(d, "else:")] + BodyLines(lower, n.orelse.stmts, d + 1);
      ElseRendered(lower, n, d);
      LayoutAppend(head, other);
      ElseText(x, Pad(d) + "else:", Block(lower, n.orelse.stmts, d + 1));
    } else {
      assert head + [] == head;
    }
  }

  /** The `if` line and the body under it. */
  lemma {:induction false} ThenRendered(lower: AgentLowering, n: Stmt, d: nat)
    requires n.If?
    ensures Layout([Line(d, "if " + EmitExpr(n.cond) + ":")] + BlockLines(lower, n.body, d + 1))
      == Pad(d) + ("if " + EmitExpr(n.cond) + ":") + "\n" + Block(lower, n.body, d + 1)
    decreases n, 0
  {
    var head := [Line(d, "if " + EmitExpr(n.cond) + ":")];
    LayoutOne(head[0]);
    BlockRendered(lower, n.body, d + 1);
    LayoutAppend(head, BlockLines(lower, n.body, d + 1));
  }

  /** The `else:` line and the statements under it. */
  lemma {:induction false} ElseRendered(lower: AgentLowering, n: Stmt, d: nat)
    requires n.If? && HasElse(n.orelse)
    ensures Layout([Line(d, "else:")] + BodyLines(lower, n.orelse.stmts, d + 1))
      == Pad(d) + "else:" + "\n" + Block(lower, n.orelse.stmts, d + 1)
    decreases n, 0
  {
    LayoutOne(Line(d, "else:"));
    BodyRendered(lower, n.orelse.stmts, d + 1);
    LayoutAppend([Line(d, "else:")], BodyLines(lower, n.orelse.stmts, d + 1));
  }

  lemma ElseText(x: string, e: string, b: string)
    ensures x + ("\n" + e + "\n" + b) == x + "\n" + (e + "\n" + b)
  {
  }

  lemma {:induction false} RenderedMatch(lower: AgentLowering, n: Stmt, d: nat)
    requires n.Match?
    ensures EmitStmt(lower, n, d) == Layout(StmtLines(lower, n, d))
    decreases n, 1
  {
    var h := MatchValue + " = " + EmitExpr(n.subject);
    var rest := CaseLines(lower, n.cases, d, true);
    var lines := CaseLayout(lower, n.cases, d, true);
    LayoutOne(Line(d, h));
    if n.cases == [] {
      assert [Pad(d) + h] + rest == [Pad(d) + h];
      assert [Line(d, h)] + lines == [Line(d, h)];
    } else {
      CasesRendered(lower, n.cases, d, true);
      JoinAppend([Pad(d) + h], rest, "\n");
      LayoutAppend([Line(d, h)], lines);
    }
  }

  /** The lines of the cases of a `match` are the layout of `CaseLayout`. */
  lemma {:induction false} CasesRendered(lower: AgentLowering, cs: seq<MatchCase>, d: nat, first: bool)
    requires cs != []
    ensures CaseLines(lower, cs, d, first) != []
    ensures Join(CaseLines(lower, cs, d, first), "\n") == Layout(CaseLayout(lower, cs, d, first))
    decreases cs, 0
  {
    var c := cs[0];
    var block := CaseBlock(lower, c, d, first);
    var lblock := CaseBlockLayout(lower, c, d, first);
    CaseBlockRendered(lower, c, d, first);
    assert CaseLayout(lower, cs, d, first) == lblock + CaseLayout(lower, cs[1..], d, false);
    if |cs| == 1 {
      assert cs[1..] == [];
      assert CaseLines(lower, cs, d, first) == block + [];
      assert CaseLayout(lower, cs, d, first) == lblock + [];
      assert block + [] == block && lblock + [] == lblock;
    } else {
      CasesRendered(lower, cs[1..], d, false);
      JoinAppend(block, CaseLines(lower, cs[1..], d, false), "\n");
      LayoutAppend(lblock, CaseLayout(lower, cs[1..], d, false));
    }
  }

  /** The lines of one case in `CaseLayout`. */
  function CaseBlockLayout(lower: AgentLowering, c: MatchCase, d: nat, first: bool): seq<Line>
    decreases c
  {
    var t := PatternTestOf(c.pattern);
    [Line(d, (if first then "if" else "elif") + " " + t.cond + ":")] + BindLayout(t.binds, d + 1) + BodyLines(lower, c.body, d + 1)
  }

  lemma {:induction false} CaseBlockRendered(lower: AgentLowering, c: MatchCase, d: nat, first: bool)
    ensures Join(CaseBlock(lower, c, d, first), "\n") == Layout(CaseBlockLayout(lower, c, d, first))
    decreases c, 0
  {
    var t := PatternTestOf(c.pattern);
    var head := (if first then "if" else "elif") + " " + t.cond + ":";
    var e: nat := d + 1;
    var s1 := [Pad(d) + head] + BindLines(t.binds, d);
    var l1 := [Line(d, head)] + BindLayout(t.binds, e);
    HeadLines(d, head, t.binds);
    if c.body == [] {
      assert CaseBlock(lower, c, d, first) == s1 + [] == s1;
      assert CaseBlockLayout(lower, c, d, first) == l1 + [] == l1;
    } else {
      BodyRendered(lower, c.body, e);
      JoinAppend(s1, EmitAll(lower, c.body, e), "\n");
      LayoutAppend(l1, BodyLines(lower, c.body, e));
    }
  }

  /** The header of a case and its bindings, line by line. */
  lemma HeadLines(d: nat, head: string, binds: seq<string>)
    ensures RenderAll([Line(d, head)] + BindLayout(binds, d + 1)) == [Pad(d) + head] + BindLines(binds, d)
  {
    var l1 := [Line(d, head)] + BindLayout(binds, d + 1);
    var s1 := [Pad(d) + head] + BindLines(binds, d);
    forall k | 0 <= k < |l1|
      ensures Render(l1[k]) == s1[k]
    {
      if k > 0 {
        Deeper(d, binds[k - 1]);
      }
    }
  }

  /** A nonempty body is the layout of the lines of its statements. */
  lemma {:induction false} BodyRendered(lower: AgentLowering, ss: seq<Stmt>, d: nat)
    requires ss != []
    ensures Block(lower, ss, d) == Layout(BodyLines(lower, ss, d))
    decreases ss, 3
  {
    Rendered(lower, ss[0], d);
    if |ss| == 1 {
      assert ss[1..] == [];
      assert BodyLines(lower, ss, d) == StmtLines(lower, ss[0], d) + [];
      assert StmtLines(lower, ss[0], d) + [] == StmtLines(lower, ss[0], d);
      assert EmitAll(lower, ss, d) == [EmitStmt(lower, ss[0], d)];
    } else {
      BodyRendered(lower, ss[1..], d);
      assert EmitAll(lower, ss, d) == [EmitStmt(lower, ss[0], d)] + EmitAll(lower, ss[1..], d);
      JoinAppend([EmitStmt(lower, ss[0], d)], EmitAll(lower, ss[1..], d), "\n");
      LayoutAppend(StmtLines(lower, ss[0], d), BodyLines(lower, ss[1..], d));
    }
  }

  /** A body after a header, empty or not, is the layout of `BlockLines`. */
  lemma {:induction false} BlockRendered(lower: AgentLowering, ss: seq<Stmt>, d: nat)
    ensures Block(lower, ss, d) == Layout(BlockLines(lower, ss, d))
    decreases ss, 4
  {
    if ss == [] {
      LayoutOne(Blank);
    } else {
      BodyRendered(lower, ss, d);
    }
  }

  /** The whole output: the header, then the lines of the written program's
      statements at indentation 0, then a final line break. */
  lemma TranspileLayout(lower: AgentLowering, p: Program, fuel: nat)
    ensures Transpile(lower, p, fuel) == Header + Layout(BodyLines(lower, Expanded(p, fuel).statements, 0)) + "\n"
  {
    var ss := Expanded(p, fuel).statements;
    if ss != [] {
      BodyRendered(lower, ss, 0);
    }
  }

  // ---------------------------------------------------------------------------
  // Properties of single statements

  /** `say` and `print` both print their text; a plain ASCII string is printed
      between single quotes. */
  lemma SayPrints(lower: AgentLowering, e: Expr, d: nat)
    ensures EmitStmt(lower, Say(e), d) == EmitStmt(lower, Print(e), d)
    ensures e.LiteralString? && (forall k :: 0 <= k < |e.str| ==> ' ' <= e.str[k] < '\U{7F}' && e.str[k] != '\'' && e.str[k] != '"' && e.str[k] != '\\')
      ==> EmitStmt(lower, Say(e), d) == Pad(d) + ("print(" + "'" + e.str + "'" + ")")
  {
    if e.LiteralString? && (forall k :: 0 <= k < |e.str| ==> ' ' <= e.str[k] < '\U{7F}' && e.str[k] != '\'' && e.str[k] != '"' && e.str[k] != '\\') {
      ReprPlain(e.str);
    }
  }

  /** Every loop end other than an integer is written as it is, a `range`
      call included; an integer `N` is written as the call `range(N)`. */
  lemma ForEnds(v: string, end: Expr, n: int)
    ensures !end.LiteralInt? ==> ForHead(v, end) == "for " + v + " in " + EmitExpr(end) + ":"
    ensures ForHead(v, LiteralInt(n)) == ForHead(v, FunctionCall("range", [LiteralInt(n)]))
  {
    var r := FunctionCall("range", [LiteralInt(n)]);
    assert EmitExpr(r) == "range(" + IntToString(n) + ")" by {
      assert ShowExprs(PyStyle, r.args) == [IntToString(n)];
    }
    RangeText(v, IntToString(n));
  }

  lemma RangeText(v: string, x: string)
    ensures "for " + v + " in range(" + x + "):" == "for " + v + " in " + ("range(" + x + ")") + ":"
  {
  }

  /** A function is `async` exactly when its definition says so, and a body
      without statements is written as `pass` one level deeper. */
  lemma DefLines(lower: AgentLowering, name: string, params: seq<string>, isAsync: bool, d: nat)
    ensures DefHead(name, params, true) == "async " + DefHead(name, params, false)
    ensures StmtLines(lower, FunctionDef(name, params, [], isAsync), d) == [Line(d, DefHead(name, params, isAsync)), Line(d + 1, "pass")]
  {
  }

  /** `while`, `do` blocks, macros left in the tree, expressions other than
      calls standing alone and calls to unknown agents are written as
      `# unsupported-stmt`. */
  lemma Unlowered(lower: AgentLowering, n: Stmt, d: nat)
    requires n.While? || n.DoBlock? || n.MacroDef? || n.MacroCall? || (n.ExprStmt? && !n.e.FunctionCall?)
      || (n.AgentCall? && !KnownAgent(n.agent))
    ensures EmitStmt(lower, n, d) == Pad(d) + "# unsupported-stmt"
  {
  }

  /** The test of a `match` case: `True` exactly for the wildcard and for a
      name, which alone binds; `False` for every pattern other than those and
      an integer literal. */
  lemma PatternKinds(p: Pattern)
    ensures var t := PatternTestOf(p);
      && (t.cond == "True" <==> p.WildcardPattern? || p.NamePattern?)
      && (t.cond == "False" <==> !(p.WildcardPattern? || p.NamePattern? || (p.LiteralPattern? && p.lit.LiteralInt?)))
      && (t.binds != [] <==> p.NamePattern?)
  {
    var t := PatternTestOf(p);
    if p.LiteralPattern? && p.lit.LiteralInt? {
      assert t.cond[0] == '_';
    }
  }

  /** A call of a macro nobody defined: the expansion error is swallowed and
      the call is written as an unsupported statement. */
  lemma UndefinedMacroKept(lower: AgentLowering, fuel: nat)
    ensures Transpile(lower, Program([MacroCall("m", [])]), fuel) == Header + "# unsupported-stmt" + "\n"
  {
    var p := Program([MacroCall("m", [])]);
    var none: Frame := map[];
    CallFailures([none, none], "m", [], 0, fuel);
    assert [none] + [none] == [none, none];
    assert p.statements[1..] == [];
    assert ExpandMacros(p, fuel) == Err(UndefinedMacro("m"));
    assert EmitAll(lower, p.statements, 0) == [EmitStmt(lower, MacroCall("m", []), 0)];
    assert Pad(0) == [];
  }
}
