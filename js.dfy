/** The JavaScript code generator (metascript/transpiler_js.py): one line of
    JavaScript per simple statement, blocks in braces on the same line,
    `range` loops lowered to counting `for` loops, and a `match` lowered to
    an `if`/`else if` chain over a constant holding the subject. Macros are
    expanded first, and an expansion error is an error of the translation. */
module TranspileJs {
  import opened Wrappers
  import opened Text
  import opened Ast
  import opened Printing
  import opened Macros
  import opened MacroFacts

  /** String literals are double-quoted with `"` escaped; unknown expressions are `undefined`. */
  const JsStyle := Style(Quoted, "undefined")

  /** `_emit_expr(e)`. */
  function EmitExpr(e: Expr): string {
    ShowExpr(JsStyle, e)
  }

  /** The constant a lowered `match` compares against. */
  const MatchValue := "__ms_match_val"

  // ---------------------------------------------------------------------------
  // _emit_pattern_match_check

  /** The condition and the binding lines that test one pattern. */
  datatype PatternTest = PatternTest(cond: string, binds: seq<string>)

  /** `target === v` for an integer literal and `target === "v"` for a
      string literal, whose text is written without escaping; no test for
      any other literal. */
  function LiteralTest(target: string, lit: Expr): Option<string> {
    if lit.LiteralInt? then Some(target + " === " + IntToString(lit.num))
    else if lit.LiteralString? then Some(target + " === \"" + lit.str + "\"")
    else None
  }

  /** `subj[idx]`. */
  function Element(subj: string, idx: nat): string {
    subj + "[" + NatToString(idx) + "]"
  }

  /** The test an element of a list pattern adds, if any. */
  function ItemTest(subj: string, items: seq<Pattern>, k: nat): Option<string>
    requires k < |items|
  {
    if items[k].LiteralPattern? then LiteralTest(Element(subj, k), items[k].lit) else None
  }

  /** The binding an element of a list pattern adds, if any. */
  function ItemBind(subj: string, items: seq<Pattern>, k: nat): Option<string>
    requires k < |items|
  {
    if items[k].NamePattern? then Some("let " + items[k].name + " = " + Element(subj, k) + ";") else None
  }

  /** The tests of the elements from index `i` on, in order. */
  function ItemTests(subj: string, items: seq<Pattern>, i: nat): seq<string>
    requires i <= |items|
    decreases |items| - i
  {
    if i == |items| then []
    else
      match ItemTest(subj, items, i)
      case Some(t) => [t] + ItemTests(subj, items, i + 1)
      case None => ItemTests(subj, items, i + 1)
  }

  /** The bindings of the elements from index `i` on, in order. */
  function ItemBinds(subj: string, items: seq<Pattern>, i: nat): seq<string>
    requires i <= |items|
    decreases |items| - i
  {
    if i == |items| then []
    else
      match ItemBind(subj, items, i)
      case Some(b) => [b] + ItemBinds(subj, items, i + 1)
      case None => ItemBinds(subj, items, i + 1)
  }

  /** The tests of a list pattern: an array, of the pattern's length, with the literal elements in place. */
  function ListTests(subj: string, items: seq<Pattern>): seq<string> {
    ["Array.isArray(" + subj + ")", subj + ".length === " + NatToString(|items|)] + ItemTests(subj, items, 0)
  }

  /** `_emit_pattern_match_check(subj, pat)`. The list of tests of a list
      pattern always holds its first two tests, so its `'true'` default is
      never used. */
  function PatternTestOf(subj: string, p: Pattern): PatternTest {
    match p
    case WildcardPattern => PatternTest("true", [])
    case LiteralPattern(lit) =>
      (match LiteralTest(subj, lit)
       case Some(t) => PatternTest(t, [])
       case None => PatternTest("false", []))
    case NamePattern(n) => PatternTest("true", ["let " + n + " = " + subj + ";"])
    case ListPattern(items) => PatternTest(Join(ListTests(subj, items), " && "), ItemBinds(subj, items, 0))
  }

  /** The `ListPattern` branch of `_emit_pattern_match_check`, which collects
      the tests and the bindings element by element. */
  method ListPatternTest(subj: string, items: seq<Pattern>) returns (cond: string, binds: seq<string>)
    ensures PatternTest(cond, binds) == PatternTestOf(subj, ListPattern(items))
  {
    var checks := ["Array.isArray(" + subj + ")", subj + ".length === " + NatToString(|items|)];
    binds := [];
    var idx := 0;
    while idx < |items|
      invariant idx <= |items|
      invariant checks + ItemTests(subj, items, idx) == ListTests(subj, items)
      invariant binds + ItemBinds(subj, items, idx) == ItemBinds(subj, items, 0)
    {
      ItemStep(subj, items, idx);
      var sub := items[idx];
      if sub.NamePattern? {
        var b := "let " + sub.name + " = " + Element(subj, idx) + ";";
        Append(binds, [b], ItemBinds(subj, items, idx + 1));
        binds := binds + [b];
      } else if sub.LiteralPattern? && sub.lit.LiteralInt? {
        var t := Element(subj, idx) + " === " + IntToString(sub.lit.num);
        Append(checks, [t], ItemTests(subj, items, idx + 1));
        checks := checks + [t];
      } else if sub.LiteralPattern? && sub.lit.LiteralString? {
        var t := Element(subj, idx) + " === \"" + sub.lit.str + "\"";
        Append(checks, [t], ItemTests(subj, items, idx + 1));
        checks := checks + [t];
      }
      idx := idx + 1;
    }
    assert checks + [] == checks && binds + [] == binds;
    // `checks` starts with two tests, so the join is never replaced by `true`.
    cond := Join(checks, " && ");
  }

  /** One element's contribution to the tests and to the bindings. */
  lemma ItemStep(subj: string, items: seq<Pattern>, i: nat)
    requires i < |items|
    ensures ItemTests(subj, items, i) == Some2Seq(ItemTest(subj, items, i)) + ItemTests(subj, items, i + 1)
    ensures ItemBinds(subj, items, i) == Some2Seq(ItemBind(subj, items, i)) + ItemBinds(subj, items, i + 1)
    ensures items[i].NamePattern? ==> ItemBind(subj, items, i) == Some("let " + items[i].name + " = " + Element(subj, i) + ";")
    ensures !items[i].NamePattern? ==> ItemBind(subj, items, i) == None
    ensures !items[i].LiteralPattern? ==> ItemTest(subj, items, i) == None
    ensures items[i].LiteralPattern? && items[i].lit.LiteralInt? ==>
      ItemTest(subj, items, i) == Some(Element(subj, i) + " === " + IntToString(items[i].lit.num))
    ensures items[i].LiteralPattern? && items[i].lit.LiteralString? ==>
      ItemTest(subj, items, i) == Some(Element(subj, i) + " === \"" + items[i].lit.str + "\"")
    ensures items[i].LiteralPattern? && !items[i].lit.LiteralInt? && !items[i].lit.LiteralString? ==>
      ItemTest(subj, items, i) == None
  {
  }

  function Some2Seq<T>(o: Option<T>): seq<T> {
    if o.Some? then [o.value] else []
  }

  /** A literal element of a list pattern is checked in place exactly when it is
      an integer or a string, and every test comes from such an element. */
  lemma {:induction false} ItemTestsSpec(subj: string, items: seq<Pattern>, i: nat)
    requires i <= |items|
    ensures forall k :: i <= k < |items| && ItemTest(subj, items, k).Some? ==> ItemTest(subj, items, k).value in ItemTests(subj, items, i)
    ensures forall t :: t in ItemTests(subj, items, i) ==> exists k :: i <= k < |items| && ItemTest(subj, items, k) == Some(t)
    decreases |items| - i
  {
    if i < |items| {
      ItemTestsSpec(subj, items, i + 1);
      ItemStep(subj, items, i);
      forall t | t in ItemTests(subj, items, i)
        ensures exists k :: i <= k < |items| && ItemTest(subj, items, k) == Some(t)
      {
        if ItemTest(subj, items, i) != Some(t) {
          assert t in ItemTests(subj, items, i + 1);
        }
      }
    }
  }

  /** Every name element of a list pattern is bound to the array element at
      its index, and every binding comes from a name element; wildcards and
      nested lists add neither a test nor a binding. */
  lemma {:induction false} ItemBindsSpec(subj: string, items: seq<Pattern>, i: nat)
    requires i <= |items|
    ensures forall k :: i <= k < |items| && items[k].NamePattern? ==>
      "let " + items[k].name + " = " + Element(subj, k) + ";" in ItemBinds(subj, items, i)
    ensures forall b :: b in ItemBinds(subj, items, i) ==> exists k :: i <= k < |items| && ItemBind(subj, items, k) == Some(b)
    ensures |ItemTests(subj, items, i)| + |ItemBinds(subj, items, i)| <= |items| - i
    decreases |items| - i
  {
    if i < |items| {
      ItemBindsSpec(subj, items, i + 1);
      ItemStep(subj, items, i);
      forall b | b in ItemBinds(subj, items, i)
        ensures exists k :: i <= k < |items| && ItemBind(subj, items, k) == Some(b)
      {
        if ItemBind(subj, items, i) != Some(b) {
          assert b in ItemBinds(subj, items, i + 1);
        }
      }
    }
  }

  // ---------------------------------------------------------------------------
  // _emit_node

  /** `_emit_node(n)` for a statement. */
  function EmitNode(n: Stmt): string
    decreases n
  {
    match n
    case Say(t) => "console.log(" + EmitExpr(t) + ");"
    case Print(t) => "console.log(" + EmitExpr(t) + ");"
    case Assign(name, v) => "let " + name + " = " + EmitExpr(v) + ";"
    case If(c, body, orelse) =>
      "if (" + EmitExpr(c) + ") { " + Body(body) + " }"
      + (if HasElse(orelse) then " else { " + Body(orelse.stmts) + " }" else "")
    case While(c, body) => "while (" + EmitExpr(c) + ") { " + Body(body) + " }"
    case ForLoop(v, end, body) => ForText(v, end, Body(body))
    case FunctionDef(name, params, body, isAsync) =>
      (if isAsync then "async " else "") + "function " + name + "(" + Join(params, ", ") + ") { " + Body(body) + " }"
    case Return(v) => "return " + EmitExpr(v) + ";"
    case DoBlock(body) => Body(body)
    case Match(subject, cases) =>
      Join(["const " + MatchValue + " = " + EmitExpr(subject) + ";"] + CaseLines(cases, true), "\n")
    case ExprStmt(e) =>
      if e.FunctionCall? then EmitExpr(e) + ";"
      else if e.Await? then "await " + EmitExpr(e.expr) + ";"
      else "/* unsupported */"
    case AgentCall(agent, payload) => "agentCall(\"" + agent + "\", JSON.parse(\"" + Escaped(payload) + "\"));"
    case MacroDef(name, params, body) => "function __macro_" + name + "(" + Join(params, ", ") + ") { " + Body(body) + " }"
    case MacroCall(name, args) => "__macro_" + name + "(" + Join(ShowExprs(JsStyle, args), ", ") + ");"
  }

  /** The statements of a body, one after the other on lines of their own. */
  function Body(ss: seq<Stmt>): string
    decreases ss, 1
  {
    Join(EmitAll(ss), "\n")
  }

  function EmitAll(ss: seq<Stmt>): (r: seq<string>)
    ensures |r| == |ss|
    ensures forall k :: 0 <= k < |ss| ==> r[k] == EmitNode(ss[k])
    decreases ss, 0
  {
    if ss == [] then [] else [EmitNode(ss[0])] + EmitAll(ss[1..])
  }

  /** The `ForLoop` branch: `range` with one, two or three arguments becomes a
      counting loop (start 0 by default, step written `+= step`), a `range`
      call with any other number of arguments counts up to the call itself,
      an integer end counts from 0 up to it, and anything else is iterated
      with `for ... of`. */
  function ForText(v: string, end: Expr, body: string): string {
    if end.FunctionCall? && end.name == "range" then
      var args := end.args;
      if |args| == 1 then Counting(v, "0", EmitExpr(args[0]), v + "++", body)
      else if |args| == 2 then Counting(v, EmitExpr(args[0]), EmitExpr(args[1]), v + "++", body)
      else if |args| == 3 then Counting(v, EmitExpr(args[0]), EmitExpr(args[1]), v + "+= " + EmitExpr(args[2]), body)
      else Counting(v, "0", EmitExpr(end), v + "++", body)
    else if end.LiteralInt? then Counting(v, "0", EmitExpr(end), v + "++", body)
    else "for (const " + v + " of " + EmitExpr(end) + ") { " + body + " }"
  }

  /** `for (let v=start; v<stop; step) { body }`. */
  function Counting(v: string, start: string, stop: string, step: string, body: string): string {
    "for (let " + v + "=" + start + "; " + v + "<" + stop + "; " + step + ") { " + body + " }"
  }

  /** The lines of one `match` case: its test, its bindings, its body and a closing brace. */
  function CaseBlock(c: MatchCase, first: bool): seq<string>
    decreases c
  {
    var t := PatternTestOf(MatchValue, c.pattern);
    [CaseHead(first, t.cond)] + t.binds + EmitAll(c.body) + ["}"]
  }

  function CaseHead(first: bool, cond: string): string {
    (if first then "if" else "else if") + " (" + cond + ") {"
  }

  /** The lines of the cases in order; only the first opens with `if`. */
  function CaseLines(cs: seq<MatchCase>, first: bool): seq<string>
    decreases cs
  {
    if cs == [] then [] else CaseBlock(cs[0], first) + CaseLines(cs[1..], false)
  }

  /** The `Match` branch of `_emit_node`, which appends line by line and
      clears a `first` flag after the first case. */
  method EmitMatch(subject: Expr, cases: seq<MatchCase>) returns (s: string)
    ensures s == EmitNode(Match(subject, cases))
  {
    var out := ["const " + MatchValue + " = " + EmitExpr(subject) + ";"];
    var first := true;
    var i := 0;
    while i < |cases|
      invariant i <= |cases|
      invariant first <==> i == 0
      invariant out + CaseLines(cases[i..], first) == ["const " + MatchValue + " = " + EmitExpr(subject) + ";"] + CaseLines(cases, true)
    {
      CaseStep(cases, i, first);
      var t := PatternTestOf(MatchValue, cases[i].pattern);
      var prefix := if first then "if" else "else if";
      var block := [prefix + " (" + t.cond + ") {"] + t.binds + EmitAll(cases[i].body) + ["}"];
      assert block == CaseBlock(cases[i], first);
      Append(out, block, CaseLines(cases[i + 1..], false));
      first := false;
      out := out + block;
      i := i + 1;
    }
    assert CaseLines(cases[i..], first) == [];
    assert out == ["const " + MatchValue + " = " + EmitExpr(subject) + ";"] + CaseLines(cases, true);
    s := Join(out, "\n");
  }

  lemma CaseStep(cases: seq<MatchCase>, i: nat, first: bool)
    requires i < |cases|
    ensures CaseLines(cases[i..], first) == CaseBlock(cases[i], first) + CaseLines(cases[i + 1..], false)
  {
    assert cases[i..][1..] == cases[i + 1..];
  }

  lemma Append<T>(a: seq<T>, b: seq<T>, c: seq<T>)
    ensures a + (b + c) == (a + b) + c
  {
  }

  /** The program's statements on lines of their own. */
  function EmitProgram(p: Program): string {
    Join(EmitAll(p.statements), "\n")
  }

  const Header := "// Transpiled by metascript transpiler_js (expanded features)\n"

  /** `transpile(program)`: expand the macros, then the header, the program
      and a final line break. An expansion error (an undefined macro, or
      nesting deeper than `fuel`) is the translation's error. */
  function Transpile(p: Program, fuel: nat): (r: Result<string, ExpandError>)
    ensures r.Err? <==> ExpandMacros(p, fuel).Err?
    ensures r.Err? ==> r.error == ExpandMacros(p, fuel).error
    ensures r.Ok? ==> StartsWith(r.value, Header) && EndsWith(r.value, "\n")
  {
    match ExpandMacros(p, fuel)
    case Err(e) => Err(e)
    case Ok(q) =>
      var out := Header + EmitProgram(q) + "\n";
      assert out[..|Header|] == Header;
      Ok(out)
  }

  // ---------------------------------------------------------------------------
  // Properties

  /** Distinct strings give distinct JavaScript literals. */
  lemma LiteralInjective(a: string, b: string)
    requires EmitExpr(LiteralString(a)) == EmitExpr(LiteralString(b))
    ensures a == b
  {
    var qa := Quoted(a);
    var qb := Quoted(b);
    assert Escaped(a) == qa[1..|qa| - 1];
    assert Escaped(b) == qb[1..|qb| - 1];
    EscapedInjective(a, b);
  }

  /** `say` and `print` both log their text, and a plain string is logged between double quotes. */
  lemma SayLogs(e: Expr)
    ensures EmitNode(Say(e)) == EmitNode(Print(e))
    ensures e.LiteralString? && '"' !in e.str ==> EmitNode(Say(e)) == "console.log(\"" + e.str + "\");"
  {
    if e.LiteralString? && '"' !in e.str {
      QuotedPlain(e.str);
    }
  }

  /** `range(n)` counts like `range(0, n)`, and an integer end `N` like `range(N)`. */
  lemma RangeDefaults(v: string, x: Expr, n: int, body: seq<Stmt>)
    ensures EmitNode(ForLoop(v, FunctionCall("range", [x]), body))
         == EmitNode(ForLoop(v, FunctionCall("range", [LiteralInt(0), x]), body))
    ensures EmitNode(ForLoop(v, LiteralInt(n), body))
         == EmitNode(ForLoop(v, FunctionCall("range", [LiteralInt(n)]), body))
  {
    assert EmitExpr(LiteralInt(0)) == "0" by {
      assert IntToString(0) == NatToString(0);
    }
  }

  /** A loop counts with `let` exactly when its end is a call of `range` or an
      integer; otherwise it iterates with `for (const v of ...)`. */
  lemma ForLoopKinds(v: string, end: Expr, body: seq<Stmt>)
    ensures var t := EmitNode(ForLoop(v, end, body));
      && (StartsWith(t, "for (let ") <==> (end.FunctionCall? && end.name == "range") || end.LiteralInt?)
      && (StartsWith(t, "for (const ") <==> !((end.FunctionCall? && end.name == "range") || end.LiteralInt?))
  {
    assert EmitNode(ForLoop(v, end, body)) == ForText(v, end, Body(body));
    ForTextKinds(v, end, Body(body));
  }

  lemma ForTextKinds(v: string, end: Expr, b: string)
    ensures var t := ForText(v, end, b);
      && (StartsWith(t, "for (let ") <==> (end.FunctionCall? && end.name == "range") || end.LiteralInt?)
      && (StartsWith(t, "for (const ") <==> !((end.FunctionCall? && end.name == "range") || end.LiteralInt?))
  {
    if end.FunctionCall? && end.name == "range" {
      var args := end.args;
      if |args| == 1 {
        CountingOpens(v, "0", EmitExpr(args[0]), v + "++", b);
      } else if |args| == 2 {
        CountingOpens(v, EmitExpr(args[0]), EmitExpr(args[1]), v + "++", b);
      } else if |args| == 3 {
        CountingOpens(v, EmitExpr(args[0]), EmitExpr(args[1]), v + "+= " + EmitExpr(args[2]), b);
      } else {
        CountingOpens(v, "0", EmitExpr(end), v + "++", b);
      }
    } else if end.LiteralInt? {
      CountingOpens(v, "0", EmitExpr(end), v + "++", b);
    } else {
      var t := "for (const " + v + " of " + EmitExpr(end) + ") { " + b + " }";
      assert t[..11] == "for (const ";
      assert t[5] != "for (let "[5];
    }
  }

  lemma CountingOpens(v: string, start: string, stop: string, step: string, body: string)
    ensures StartsWith(Counting(v, start, stop, step, body), "for (let ")
    ensures !StartsWith(Counting(v, start, stop, step, body), "for (const ")
  {
    var t := Counting(v, start, stop, step, body);
    assert t[..9] == "for (let ";
    assert t[5] != "for (const "[5];
  }

  /** A function is `async` exactly when the definition says so; nothing else changes. */
  lemma AsyncPrefix(name: string, params: seq<string>, body: seq<Stmt>)
    ensures EmitNode(FunctionDef(name, params, body, true)) == "async " + EmitNode(FunctionDef(name, params, body, false))
  {
  }

  /** A macro left in the tree becomes a function named `__macro_<name>`, and a
      call of it a call of that function. */
  lemma MacroHelpers(name: string, params: seq<string>, body: seq<Stmt>, args: seq<Expr>)
    ensures EmitNode(MacroDef(name, params, body)) == EmitNode(FunctionDef("__macro_" + name, params, body, false))
    ensures EmitNode(MacroCall(name, args)) == EmitNode(ExprStmt(FunctionCall("__macro_" + name, args)))
  {
    var ps := Join(params, ", ");
    var b := Body(body);
    var xs := Join(ShowExprs(JsStyle, args), ", ");
    assert EmitNode(MacroDef(name, params, body)) == "function __macro_" + name + "(" + ps + ") { " + b + " }";
    assert EmitNode(FunctionDef("__macro_" + name, params, body, false)) == "" + "function " + ("__macro_" + name) + "(" + ps + ") { " + b + " }";
    HelperName(name, ps, b);
    assert EmitNode(MacroCall(name, args)) == "__macro_" + name + "(" + xs + ");";
    assert EmitNode(ExprStmt(FunctionCall("__macro_" + name, args))) == ("__macro_" + name) + "(" + xs + ")" + ";";
    CallName(name, xs);
  }

  lemma HelperName(n: string, ps: string, b: string)
    ensures "function __macro_" + n + "(" + ps + ") { " + b + " }" == "" + "function " + ("__macro_" + n) + "(" + ps + ") { " + b + " }"
  {
  }

  lemma CallName(n: string, xs: string)
    ensures "__macro_" + n + "(" + xs + ");" == ("__macro_" + n) + "(" + xs + ")" + ";"
  {
  }

  /** The number of lines of one case. */
  function BlockSize(c: MatchCase): nat {
    2 + |PatternTestOf(MatchValue, c.pattern).binds| + |c.body|
  }

  /** Where the lines of case `k` begin. */
  function Offset(cs: seq<MatchCase>, k: nat): nat
    requires k <= |cs|
  {
    if k == 0 then 0 else BlockSize(cs[0]) + Offset(cs[1..], k - 1)
  }

  /** Case `k` of a `match` opens a branch of the chain at its own place, in
      source order: `if` for the first case and `else if` for every later one,
      testing that case's pattern. */
  lemma {:induction false} CaseOrder(cs: seq<MatchCase>, first: bool, k: nat)
    requires k < |cs|
    ensures |CaseLines(cs, first)| == Offset(cs, |cs|)
    ensures Offset(cs, k) < |CaseLines(cs, first)|
    ensures CaseLines(cs, first)[Offset(cs, k)] == CaseHead(first && k == 0, PatternTestOf(MatchValue, cs[k].pattern).cond)
  {
    assert |CaseBlock(cs[0], first)| == BlockSize(cs[0]);
    if |cs| > 1 {
      CaseOrder(cs[1..], false, if k == 0 then 0 else k - 1);
    } else {
      assert cs[1..] == [];
    }
    if k > 0 {
      assert cs[1..][k - 1] == cs[k];
    }
  }

  /** A `match` is a constant holding the subject followed by the case branches. */
  lemma MatchLowering(subject: Expr, cases: seq<MatchCase>)
    ensures cases == [] ==> EmitNode(Match(subject, cases)) == "const " + MatchValue + " = " + EmitExpr(subject) + ";"
    ensures cases != [] ==> StartsWith(EmitNode(Match(subject, cases)),
      "const " + MatchValue + " = " + EmitExpr(subject) + ";" + "\n" + CaseHead(true, PatternTestOf(MatchValue, cases[0].pattern).cond))
  {
    var head := "const " + MatchValue + " = " + EmitExpr(subject) + ";";
    var rest := CaseLines(cases, true);
    if cases != [] {
      CaseOrder(cases, true, 0);
      JoinCons(head, rest, "\n");
      JoinStarts(rest, "\n");
      PrefixExtend(head + "\n", Join(rest, "\n"), rest[0]);
    } else {
      assert [head] + rest == [head];
    }
  }

  lemma JoinCons(head: string, rest: seq<string>, sep: string)
    requires rest != []
    ensures Join([head] + rest, sep) == head + sep + Join(rest, sep)
  {
    assert ([head] + rest)[1..] == rest;
  }

  lemma PrefixExtend(a: string, j: string, r: string)
    requires StartsWith(j, r)
    ensures StartsWith(a + j, a + r)
  {
    assert (a + j)[..|a + r|] == a + j[..|r|];
  }

  /** A nonempty list joined by a separator starts with its first element. */
  lemma JoinStarts(parts: seq<string>, sep: string)
    requires parts != []
    ensures StartsWith(Join(parts, sep), parts[0])
  {
  }

  /** Without macros, translation succeeds at any depth and writes the
      program itself, empty `else` lists dropped. */
  lemma TranspileMacroFree(p: Program, fuel: nat)
    requires MacroFreeBody(p.statements)
    ensures Transpile(p, fuel) == Ok(Header + EmitProgram(Program(CanonAll(p.statements))) + "\n")
  {
    ExpandFreeProgram(p, fuel);
  }

  /** `macro twice(x): say x` then `@twice("Hi")` translates to a single
      `console.log("Hi");`: the macro is inlined and leaves no helper behind. */
  lemma TwiceTranspiles(fuel: nat)
    requires fuel >= 1
    ensures Transpile(Program([MacroDef("twice", ["x"], [Say(NameExpr("x"))]),
                               MacroCall("twice", [LiteralString("Hi")])]), fuel)
         == Ok(Header + "console.log(\"Hi\");" + "\n")
  {
    TwiceExample(fuel);
    var said := [Say(LiteralString("Hi"))];
    assert EmitAll(said) == [EmitNode(said[0])];
    SayLogs(LiteralString("Hi"));
    assert "console.log(\"" + "Hi" + "\");" == "console.log(\"Hi\");";
    assert EmitProgram(Program(said)) == "console.log(\"Hi\");";
  }

  /** A call of a macro nobody defined makes the whole translation fail. */
  lemma UndefinedMacroFails(fuel: nat)
    ensures Transpile(Program([MacroCall("m", [])]), fuel) == Err(UndefinedMacro("m"))
  {
    var none: Frame := map[];
    CallFailures([none, none], "m", [], 0, fuel);
    assert [none] + [none] == [none, none];
  }
}
