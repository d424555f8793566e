/** The unparser (metascript/unparse.py): turns a syntax tree back into
    MetaScript source text. Nested bodies go one indentation level (four
    spaces) deeper; statement kinds the unparser does not know become
    `# unsupported`. */
module Unparse {
  import opened Wrappers
  import opened Text
  import opened Ast
  import opened Printing

  /** String literals are double-quoted with `"` escaped; unknown expressions print as `None`. */
  const MetaStyle := Style(Quoted, "None")

  /** `_unparse_expr(e)`. */
  function UnparseExpr(e: Expr): string {
    ShowExpr(MetaStyle, e)
  }

  /** One element of a list pattern: a name, an integer, or `?`. */
  function ItemSource(p: Pattern): string {
    match p
    case NamePattern(n) => n
    case LiteralPattern(lit) => if lit.LiteralInt? then IntToString(lit.num) else "?"
    case _ => "?"
  }

  function ItemSources(items: seq<Pattern>): (r: seq<string>)
    ensures |r| == |items|
    ensures forall k :: 0 <= k < |items| ==> r[k] == ItemSource(items[k])
  {
    if items == [] then [] else [ItemSource(items[0])] + ItemSources(items[1..])
  }

  /** The `psrc` of a `case` line: `_`, a name, an integer or a list of items;
      any other pattern (a string literal among them) prints as `_`. */
  function PatternSource(p: Pattern): string {
    match p
    case WildcardPattern => "_"
    case NamePattern(n) => n
    case LiteralPattern(lit) => if lit.LiteralInt? then IntToString(lit.num) else "_"
    case ListPattern(items) => "[" + Join(ItemSources(items), ", ") + "]"
  }

  /** What follows `in` in a `for` line: a call of `range` as it is, an
      integer `N` as `range(N)`, anything else as it is. */
  function LoopSource(end: Expr): string {
    if end.FunctionCall? && end.name == "range" then UnparseExpr(end)
    else if end.LiteralInt? then "range(" + UnparseExpr(end) + ")"
    else UnparseExpr(end)
  }

  /** `_unparse_stmt(n, indent)`. */
  function UnparseStmt(n: Stmt, indent: nat): string
    decreases n
  {
    var pad := Pad(indent);
    match n
    case Say(t) => pad + "say " + UnparseExpr(t)
    case Print(t) => pad + "print " + UnparseExpr(t)
    case Assign(name, v) => pad + "let " + name + " = " + UnparseExpr(v)
    case FunctionDef(name, params, body, _) =>
      pad + "def " + name + "(" + Join(params, ", ") + "):" + "\n"
      + (if body != [] then Block(body, indent + 1) else pad + "    pass")
    case Return(v) => pad + "return " + UnparseExpr(v)
    case ForLoop(v, end, body) => pad + "for " + v + " in " + LoopSource(end) + ":\n" + Block(body, indent + 1)
    case If(c, body, orelse) =>
      pad + "if " + UnparseExpr(c) + ":" + "\n" + Block(body, indent + 1)
      + (if HasElse(orelse) then "\n" + pad + "else:" + "\n" + Block(orelse.stmts, indent + 1) else "")
    case ExprStmt(e) => if e.FunctionCall? then pad + UnparseExpr(e) else pad + "# unsupported"
    case Match(subject, cases) => pad + "match " + UnparseExpr(subject) + ":" + CasesText(cases, indent)
    case While(_, _) => pad + "# unsupported"
    case DoBlock(_) => pad + "# unsupported"
    case AgentCall(_, _) => pad + "# unsupported"
    case MacroDef(_, _, _) => pad + "# unsupported"
    case MacroCall(_, _) => pad + "# unsupported"
  }

  /** The statements of a body, each rendered at `indent`, joined by line breaks. */
  function Block(ss: seq<Stmt>, indent: nat): string
    decreases ss, 1
  {
    Join(Lines(ss, indent), "\n")
  }

  function Lines(ss: seq<Stmt>, indent: nat): (r: seq<string>)
    ensures |r| == |ss|
    ensures forall k :: 0 <= k < |ss| ==> r[k] == UnparseStmt(ss[k], indent)
    decreases ss, 0
  {
    if ss == [] then [] else [UnparseStmt(ss[0], indent)] + Lines(ss[1..], indent)
  }

  /** The `case` line of one match case: its body follows the colon on the same line. */
  function CaseLine(c: MatchCase, indent: nat): string
    decreases c
  {
    "\n" + Pad(indent) + "    case " + PatternSource(c.pattern) + ": " + Block(c.body, indent + 2)
  }

  function CasesText(cs: seq<MatchCase>, indent: nat): string
    decreases cs
  {
    if cs == [] then [] else CaseLine(cs[0], indent) + CasesText(cs[1..], indent)
  }

  /** `unparse(program)`: the statements at indentation 0, one after the other, and a final line break. */
  function UnparseProgram(p: Program): string {
    Join(Lines(p.statements, 0), "\n") + "\n"
  }

  /** The `Match` branch of `_unparse_stmt`, which grows its text case by case. */
  method UnparseMatch(subject: Expr, cases: seq<MatchCase>, indent: nat) returns (out: string)
    ensures out == UnparseStmt(Match(subject, cases), indent)
  {
    var head := Pad(indent) + "match " + UnparseExpr(subject) + ":";
    out := AppendCases(head, cases, indent);
    MatchText(subject, cases, indent);
  }

  /** The loop of the `Match` branch: one `case` line after another. */
  method AppendCases(head: string, cases: seq<MatchCase>, indent: nat) returns (out: string)
    ensures out == head + CasesText(cases, indent)
  {
    var pad := Pad(indent);
    out := head;
    var i := 0;
    while i < |cases|
      invariant i <= |cases|
      invariant out + CasesText(cases[i..], indent) == head + CasesText(cases, indent)
    {
      var c := cases[i];
      var psrc := PatternSource(c.pattern);
      AppendStep(out, head, cases, indent, i);
      out := out + "\n" + pad + "    case " + psrc + ": " + Block(c.body, indent + 2);
      i := i + 1;
    }
    assert cases[i..] == [];
  }

  /** One turn of the loop of `AppendCases` keeps its invariant. */
  lemma AppendStep(out: string, head: string, cases: seq<MatchCase>, indent: nat, i: nat)
    requires i < |cases|
    requires out + CasesText(cases[i..], indent) == head + CasesText(cases, indent)
    ensures (out + "\n" + Pad(indent) + "    case " + PatternSource(cases[i].pattern) + ": " + Block(cases[i].body, indent + 2))
      + CasesText(cases[i + 1..], indent) == head + CasesText(cases, indent)
  {
    CasesStep(cases, indent, i);
    CaseAppended(out, cases[i], indent);
    var line := CaseLine(cases[i], indent);
    var rest := CasesText(cases[i + 1..], indent);
    assert out + (line + rest) == (out + line) + rest;
  }

  lemma MatchText(subject: Expr, cases: seq<MatchCase>, indent: nat)
    ensures UnparseStmt(Match(subject, cases), indent)
      == Pad(indent) + "match " + UnparseExpr(subject) + ":" + CasesText(cases, indent)
  {
  }

  lemma CasesStep(cases: seq<MatchCase>, indent: nat, i: nat)
    requires i < |cases|
    ensures CasesText(cases[i..], indent) == CaseLine(cases[i], indent) + CasesText(cases[i + 1..], indent)
  {
    assert cases[i..][1..] == cases[i + 1..];
  }

  /** Appending the pieces of a `case` line one by one appends the line. */
  lemma CaseAppended(out: string, c: MatchCase, indent: nat)
    ensures out + "\n" + Pad(indent) + "    case " + PatternSource(c.pattern) + ": " + Block(c.body, indent + 2)
      == out + CaseLine(c, indent)
  {
  }
}
