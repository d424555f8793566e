/** The MetaScript syntax tree (metascript/ast.py) and its structural
    serialiser `node_to_dict`.

    The Python classes are open dataclasses whose fields hold any node; here the
    node kinds form closed datatypes. Two shapes the parser really produces get
    their own constructors: `NoneExpr` is Python's `None` in an expression slot
    (for instance the value of `let x =`), and `ExprStmt(e)` is an expression
    node standing where a statement is expected (a bare call `f(x)` or the
    `NameExpr(line)` fallback of the line parser). */
module Ast {
  import opened Wrappers
  import opened Json

  datatype Expr =
    | FunctionCall(name: string, args: seq<Expr>)
    | BinaryOp(op: string, left: Expr, right: Expr)
    | UnaryOp(op: string, operand: Expr)
    | Await(expr: Expr)
    | ListLiteral(elements: seq<Expr>)
    | LiteralString(str: string)
    | LiteralInt(num: int)
    | NameExpr(id: string)
    | NoneExpr

  datatype Pattern =
    | WildcardPattern
    | NamePattern(name: string)
    | LiteralPattern(lit: Expr)
    | ListPattern(items: seq<Pattern>)

  datatype Stmt =
    | Say(text: Expr)
    | Print(text: Expr)
    | Assign(name: string, value: Expr)
    | If(cond: Expr, body: seq<Stmt>, orelse: Else)
    | While(cond: Expr, body: seq<Stmt>)
    | ForLoop(loopVar: string, end: Expr, body: seq<Stmt>)
    | FunctionDef(name: string, params: seq<string>, body: seq<Stmt>, isAsync: bool := false)
    | Return(value: Expr)
    | DoBlock(body: seq<Stmt>)
    | AgentCall(agent: string, payload: string)
    | Match(subject: Expr, cases: seq<MatchCase>)
    | MacroDef(name: string, params: seq<string>, body: seq<Stmt>)
    | MacroCall(name: string, args: seq<Expr>)
    | ExprStmt(e: Expr)

  /** The `orelse` field of an `if`: Python's `None` when there is no else
      branch, or a list of statements, which may be empty. */
  datatype Else = NoElse | ElseBlock(stmts: seq<Stmt>)

  datatype MatchCase = MatchCase(pattern: Pattern, body: seq<Stmt>)

  datatype Program = Program(statements: seq<Stmt>)

  /** Python's truth value of an optional statement list: `None` and `[]` are false. */
  predicate HasElse(orelse: Else) {
    orelse.ElseBlock? && orelse.stmts != []
  }

  // ---------------------------------------------------------------------------
  // node_to_dict

  /** The key under which `node_to_dict` files each expression kind. */
  function ExprKey(e: Expr): string {
    match e
    case FunctionCall(_, _) => "FunctionCall"
    case BinaryOp(_, _, _) => "BinaryOp"
    case UnaryOp(_, _) => "UnaryOp"
    case Await(_) => "Await"
    case ListLiteral(_) => "List"
    case LiteralString(_) => "String"
    case LiteralInt(_) => "Int"
    case NameExpr(_) => "Name"
    case NoneExpr => ""
  }

  /** The key under which `node_to_dict` files each statement kind. */
  function StmtKey(s: Stmt): string {
    match s
    case Say(_) => "Say"
    case Print(_) => "Print"
    case Assign(_, _) => "Assign"
    case If(_, _, _) => "If"
    case While(_, _) => "While"
    case ForLoop(_, _, _) => "ForLoop"
    case FunctionDef(_, _, _, _) => "FunctionDef"
    case Return(_) => "Return"
    case DoBlock(_) => "DoBlock"
    case AgentCall(_, _) => "AgentCall"
    case Match(_, _) => "Match"
    case MacroDef(_, _, _) => "MacroDef"
    case MacroCall(_, _) => "MacroCall"
    case ExprStmt(e) => ExprKey(e)
  }

  /** A one-entry dictionary `{key: v}`. */
  function Single(key: string, v: Json): Json {
    JObject([(key, v)])
  }

  predicate IsSingle(j: Json, key: string) {
    j.JObject? && |j.fields| == 1 && j.fields[0].0 == key
  }

  function Strs(ss: seq<string>): (r: Json)
    ensures r.JList? && |r.items| == |ss|
    ensures forall k :: 0 <= k < |ss| ==> r.items[k] == JStr(ss[k])
  {
    JList(seq(|ss|, k requires 0 <= k < |ss| => JStr(ss[k])))
  }

  /** `node_to_dict` on an expression. `None` has no branch of its own and falls
      through to `str(n)`, the string "None". */
  function ExprToDict(e: Expr): (r: Json)
    ensures e != NoneExpr ==> IsSingle(r, ExprKey(e))
    ensures e == NoneExpr ==> r == JStr("None")
  {
    match e
    case FunctionCall(n, args) =>
      Single("FunctionCall", JObject([("name", JStr(n)), ("args", JList(ExprsToDict(args)))]))
    case BinaryOp(op, l, r) =>
      Single("BinaryOp", JObject([("op", JStr(op)), ("left", ExprToDict(l)), ("right", ExprToDict(r))]))
    case UnaryOp(op, x) => Single("UnaryOp", JObject([("op", JStr(op)), ("operand", ExprToDict(x))]))
    case Await(x) => Single("Await", ExprToDict(x))
    case ListLiteral(xs) => Single("List", JList(ExprsToDict(xs)))
    case LiteralString(v) => Single("String", JStr(v))
    case LiteralInt(v) => Single("Int", JInt(v))
    case NameExpr(id) => Single("Name", JStr(id))
    case NoneExpr => JStr("None")
  }

  function ExprsToDict(es: seq<Expr>): (r: seq<Json>)
    ensures |r| == |es|
    ensures forall k :: 0 <= k < |es| ==> r[k] == ExprToDict(es[k])
  {
    seq(|es|, k requires 0 <= k < |es| => ExprToDict(es[k]))
  }

  /** `node_to_dict` on a pattern: every kind is filed under "Pattern". */
  function PatternToDict(p: Pattern): (r: Json)
    ensures IsSingle(r, "Pattern")
  {
    match p
    case WildcardPattern => Single("Pattern", JStr("_"))
    case NamePattern(n) => Single("Pattern", JObject([("name", JStr(n))]))
    case LiteralPattern(v) => Single("Pattern", JObject([("lit", ExprToDict(v))]))
    case ListPattern(ps) => Single("Pattern", JList(seq(|ps|, k requires 0 <= k < |ps| => PatternToDict(ps[k]))))
  }

  /** `node_to_dict` on a statement; an expression statement is its expression's dictionary. */
  function StmtToDict(s: Stmt): (r: Json)
    ensures s != ExprStmt(NoneExpr) ==> IsSingle(r, StmtKey(s))
  {
    match s
    case Say(t) => Single("Say", ExprToDict(t))
    case Print(t) => Single("Print", ExprToDict(t))
    case Assign(n, v) => Single("Assign", JObject([("name", JStr(n)), ("value", ExprToDict(v))]))
    case If(c, b, o) =>
      Single("If", JObject([("cond", ExprToDict(c)), ("body", JList(StmtsToDict(b))),
                            ("orelse", ElseToDict(o))]))
    case While(c, b) => Single("While", JObject([("cond", ExprToDict(c)), ("body", JList(StmtsToDict(b)))]))
    case ForLoop(v, e, b) =>
      Single("ForLoop", JObject([("var", JStr(v)), ("end", ExprToDict(e)), ("body", JList(StmtsToDict(b)))]))
    case FunctionDef(n, ps, b, a) =>
      Single("FunctionDef", JObject([("name", JStr(n)), ("params", Strs(ps)), ("is_async", JBool(a)),
                                     ("body", JList(StmtsToDict(b)))]))
    case Return(v) => Single("Return", ExprToDict(v))
    case DoBlock(b) => Single("DoBlock", JList(StmtsToDict(b)))
    case AgentCall(a, p) => Single("AgentCall", JObject([("agent", JStr(a)), ("payload", JStr(p))]))
    case Match(subj, cs) =>
      Single("Match", JObject([("subject", ExprToDict(subj)),
                               ("cases", JList(CasesToDict(cs)))]))
    case MacroDef(n, ps, b) =>
      Single("MacroDef", JObject([("name", JStr(n)), ("params", Strs(ps)), ("body", JList(StmtsToDict(b)))]))
    case MacroCall(n, args) => Single("MacroCall", JObject([("name", JStr(n)), ("args", JList(ExprsToDict(args)))]))
    case ExprStmt(e) => ExprToDict(e)
  }

  function StmtsToDict(ss: seq<Stmt>): (r: seq<Json>)
    ensures |r| == |ss|
    ensures forall k :: 0 <= k < |ss| ==> r[k] == StmtToDict(ss[k])
  {
    seq(|ss|, k requires 0 <= k < |ss| => StmtToDict(ss[k]))
  }

  /** The else branch: `null` when it is missing or empty, otherwise its statements. */
  function ElseToDict(o: Else): (r: Json)
    ensures !HasElse(o) ==> r == JNull
    ensures HasElse(o) ==> r == JList(StmtsToDict(o.stmts))
  {
    match o
    case ElseBlock(ss) => if ss != [] then JList(StmtsToDict(ss)) else JNull
    case NoElse => JNull
  }

  /** The cases inside a `Match`: bare pattern/body pairs, in case order. */
  function CasesToDict(cs: seq<MatchCase>): (r: seq<Json>)
    ensures |r| == |cs|
    ensures forall k :: 0 <= k < |cs| ==> r[k] == CaseFields(cs[k])
  {
    if cs == [] then [] else [CaseFields(cs[0])] + CasesToDict(cs[1..])
  }

  function CaseFields(c: MatchCase): Json {
    JObject([("pattern", PatternToDict(c.pattern)), ("body", JList(StmtsToDict(c.body)))])
  }

  /** `node_to_dict` on a `MatchCase` node handed to it on its own. */
  function MatchCaseToDict(c: MatchCase): (r: Json)
    ensures IsSingle(r, "MatchCase") && r.fields[0].1 == CaseFields(c)
  {
    Single("MatchCase", CaseFields(c))
  }

  /** `node_to_dict` on a program: its statements, in order, under "Program". */
  function ProgramToDict(p: Program): (r: Json)
    ensures IsSingle(r, "Program")
    ensures r.fields[0].1.JList? && |r.fields[0].1.items| == |p.statements|
    ensures forall k :: 0 <= k < |p.statements| ==> r.fields[0].1.items[k] == StmtToDict(p.statements[k])
  {
    Single("Program", JList(StmtsToDict(p.statements)))
  }

  // ---------------------------------------------------------------------------
  // What the serialisation keeps and what it forgets

  /** The tree with every empty else branch written as a missing one: the only
      distinction `node_to_dict` does not keep. */
  function Canon(s: Stmt): (r: Stmt)
    ensures StmtKey(r) == StmtKey(s)
  {
    match s
    case If(c, b, o) => If(c, CanonAll(b), CanonElse(o))
    case While(c, b) => While(c, CanonAll(b))
    case ForLoop(v, e, b) => ForLoop(v, e, CanonAll(b))
    case FunctionDef(n, ps, b, a) => FunctionDef(n, ps, CanonAll(b), a)
    case DoBlock(b) => DoBlock(CanonAll(b))
    case Match(subj, cs) => Match(subj, CanonCases(cs))
    case MacroDef(n, ps, b) => MacroDef(n, ps, CanonAll(b))
    case _ => s
  }

  function CanonAll(ss: seq<Stmt>): (r: seq<Stmt>)
    ensures |r| == |ss|
    ensures forall k :: 0 <= k < |ss| ==> r[k] == Canon(ss[k])
  {
    seq(|ss|, k requires 0 <= k < |ss| => Canon(ss[k]))
  }

  function CanonElse(o: Else): (r: Else)
    ensures r.ElseBlock? ==> r.stmts != []
    ensures HasElse(r) == HasElse(o)
  {
    match o
    case ElseBlock(ss) => if ss != [] then ElseBlock(CanonAll(ss)) else NoElse
    case NoElse => NoElse
  }

  function CanonCases(cs: seq<MatchCase>): (r: seq<MatchCase>)
    ensures |r| == |cs|
    ensures forall k :: 0 <= k < |cs| ==> r[k] == MatchCase(cs[k].pattern, CanonAll(cs[k].body))
  {
    if cs == [] then [] else [MatchCase(cs[0].pattern, CanonAll(cs[0].body))] + CanonCases(cs[1..])
  }

  /** Distinct expressions serialise differently. */
  lemma {:induction false} ExprToDictInjective(a: Expr, b: Expr)
    requires ExprToDict(a) == ExprToDict(b)
    ensures a == b
    decreases a
  {
    if a == NoneExpr || b == NoneExpr {
      return;
    }
    assert ExprKey(a) == ExprKey(b);
    match a
    case FunctionCall(n, xs) => ExprsToDictInjective(xs, b.args);
    case BinaryOp(op, l, r) =>
      ExprToDictInjective(l, b.left);
      ExprToDictInjective(r, b.right);
    case UnaryOp(op, x) => ExprToDictInjective(x, b.operand);
    case Await(x) => ExprToDictInjective(x, b.expr);
    case ListLiteral(xs) => ExprsToDictInjective(xs, b.elements);
    case LiteralString(_) =>
    case LiteralInt(_) =>
    case NameExpr(_) =>
  }

  lemma {:induction false} ExprsToDictInjective(xs: seq<Expr>, ys: seq<Expr>)
    requires ExprsToDict(xs) == ExprsToDict(ys)
    ensures xs == ys
    decreases xs
  {
    forall k | 0 <= k < |xs| ensures xs[k] == ys[k] {
      assert ExprsToDict(xs)[k] == ExprsToDict(ys)[k];
      ExprToDictInjective(xs[k], ys[k]);
    }
  }

  lemma {:induction false} PatternToDictInjective(a: Pattern, b: Pattern)
    requires PatternToDict(a) == PatternToDict(b)
    ensures a == b
    decreases a
  {
    match a
    case WildcardPattern =>
    case NamePattern(_) =>
    case LiteralPattern(v) => ExprToDictInjective(v, b.lit);
    case ListPattern(ps) =>
      var qs := b.items;
      assert |ps| == |qs| by {
        assert |PatternToDict(a).fields[0].1.items| == |ps|;
      }
      forall k | 0 <= k < |ps| ensures ps[k] == qs[k] {
        assert PatternToDict(a).fields[0].1.items[k] == PatternToDict(ps[k]);
        assert PatternToDict(b).fields[0].1.items[k] == PatternToDict(qs[k]);
        PatternToDictInjective(ps[k], qs[k]);
      }
  }

  /** Two statements serialise alike exactly when they agree up to empty else
      branches (forward direction). */
  lemma {:induction false} StmtToDictInjective(a: Stmt, b: Stmt)
    requires StmtToDict(a) == StmtToDict(b)
    ensures Canon(a) == Canon(b)
    decreases a, 2
  {
    if a.ExprStmt? || b.ExprStmt? {
      ExprStmtToDictSeparate(a, b);
      ExprToDictInjective(a.e, b.e);
      return;
    }
    KeysAgree(a, b);
    if a.If? || a.While? || a.ForLoop? || a.DoBlock? {
      LoopInjective(a, b);
    } else if a.FunctionDef? || a.Match? || a.MacroDef? {
      DefinitionInjective(a, b);
    } else {
      LeafInjective(a, b);
    }
  }

  /** Equal serialisations of two statements that are not bare expressions have the same key. */
  lemma KeysAgree(a: Stmt, b: Stmt)
    requires StmtToDict(a) == StmtToDict(b) && !a.ExprStmt? && !b.ExprStmt?
    ensures StmtKey(a) == StmtKey(b)
  {
  }

  lemma {:induction false} LoopInjective(a: Stmt, b: Stmt)
    requires StmtToDict(a) == StmtToDict(b) && StmtKey(a) == StmtKey(b) && !b.ExprStmt?
    requires a.If? || a.While? || a.ForLoop? || a.DoBlock?
    ensures Canon(a) == Canon(b)
    decreases a, 1
  {
    match a
    case If(c, body, o) =>
      ExprToDictInjective(c, b.cond);
      StmtsToDictInjective(body, b.body);
      ElseInjective(o, b.orelse);
    case While(c, body) =>
      ExprToDictInjective(c, b.cond);
      StmtsToDictInjective(body, b.body);
    case ForLoop(_, e, body) =>
      ExprToDictInjective(e, b.end);
      StmtsToDictInjective(body, b.body);
    case DoBlock(body) => StmtsToDictInjective(body, b.body);
  }

  lemma {:induction false} DefinitionInjective(a: Stmt, b: Stmt)
    requires StmtToDict(a) == StmtToDict(b) && StmtKey(a) == StmtKey(b) && !b.ExprStmt?
    requires a.FunctionDef? || a.Match? || a.MacroDef?
    ensures Canon(a) == Canon(b)
    decreases a, 1
  {
    match a
    case FunctionDef(_, ps, body, _) =>
      StrsInjective(ps, b.params);
      StmtsToDictInjective(body, b.body);
    case Match(subj, cs) =>
      ExprToDictInjective(subj, b.subject);
      CasesInjective(cs, b.cases);
    case MacroDef(_, ps, body) =>
      StrsInjective(ps, b.params);
      StmtsToDictInjective(body, b.body);
  }

  lemma LeafInjective(a: Stmt, b: Stmt)
    requires StmtToDict(a) == StmtToDict(b) && StmtKey(a) == StmtKey(b) && !b.ExprStmt?
    requires a.Say? || a.Print? || a.Assign? || a.Return? || a.AgentCall? || a.MacroCall?
    ensures Canon(a) == Canon(b)
  {
    match a
    case Say(t) => ExprToDictInjective(t, b.text);
    case Print(t) => ExprToDictInjective(t, b.text);
    case Assign(_, v) => ExprToDictInjective(v, b.value);
    case Return(v) => ExprToDictInjective(v, b.value);
    case AgentCall(_, _) =>
    case MacroCall(_, args) => ExprsToDictInjective(args, b.args);
  }

  lemma ExprStmtToDictSeparate(a: Stmt, b: Stmt)
    requires StmtToDict(a) == StmtToDict(b)
    requires a.ExprStmt? || b.ExprStmt?
    ensures a.ExprStmt? && b.ExprStmt?
  {
    if !b.ExprStmt? {
      ExprStmtApart(a, b);
    } else if !a.ExprStmt? {
      ExprStmtApart(b, a);
    }
  }

  /** A bare expression and any other statement serialise differently. */
  lemma ExprStmtApart(a: Stmt, b: Stmt)
    requires a.ExprStmt? && !b.ExprStmt?
    ensures StmtToDict(a) != StmtToDict(b)
  {
    var r := StmtToDict(b);
    assert IsSingle(r, StmtKey(b));
    if a.e != NoneExpr {
      KeysApart(a.e, b);
      assert IsSingle(StmtToDict(a), ExprKey(a.e));
    }
  }

  /** No expression key is the key of a statement that is not a bare expression. */
  lemma KeysApart(e: Expr, b: Stmt)
    requires !b.ExprStmt?
    ensures ExprKey(e) != StmtKey(b)
  {
  }

  lemma StrsInjective(xs: seq<string>, ys: seq<string>)
    requires Strs(xs) == Strs(ys)
    ensures xs == ys
  {
    assert |xs| == |ys|;
    forall k | 0 <= k < |xs| ensures xs[k] == ys[k] {
      assert Strs(xs).items[k] == Strs(ys).items[k];
    }
  }

  lemma {:induction false} CasesInjective(cs: seq<MatchCase>, ds: seq<MatchCase>)
    requires CasesToDict(cs) == CasesToDict(ds)
    ensures CanonCases(cs) == CanonCases(ds)
    decreases cs
  {
    forall k | 0 <= k < |cs| ensures CanonCases(cs)[k] == CanonCases(ds)[k] {
      assert CasesToDict(cs)[k] == CasesToDict(ds)[k];
      PatternToDictInjective(cs[k].pattern, ds[k].pattern);
      StmtsToDictInjective(cs[k].body, ds[k].body);
    }
  }

  lemma {:induction false} ElseInjective(o1: Else, o2: Else)
    requires ElseToDict(o1) == ElseToDict(o2)
    ensures CanonElse(o1) == CanonElse(o2)
    decreases o1
  {
    match o1
    case ElseBlock(ss) =>
      if ss != [] {
        StmtsToDictInjective(ss, o2.stmts);
      }
    case NoElse =>
  }

  lemma {:induction false} StmtsToDictInjective(xs: seq<Stmt>, ys: seq<Stmt>)
    requires StmtsToDict(xs) == StmtsToDict(ys)
    ensures CanonAll(xs) == CanonAll(ys)
    decreases xs
  {
    forall k | 0 <= k < |xs| ensures Canon(xs[k]) == Canon(ys[k]) {
      assert StmtsToDict(xs)[k] == StmtsToDict(ys)[k];
      StmtToDictInjective(xs[k], ys[k]);
    }
  }

  /** ... and the backward direction: normalising empty else branches does not
      change the serialisation. */
  lemma {:induction false} CanonSameDict(s: Stmt)
    ensures StmtToDict(Canon(s)) == StmtToDict(s)
    decreases s
  {
    match s
    case If(c, b, o) =>
      CanonAllSameDict(b);
      CanonElseSameDict(o);
    case While(_, b) => CanonAllSameDict(b);
    case ForLoop(_, _, b) => CanonAllSameDict(b);
    case FunctionDef(_, _, b, _) => CanonAllSameDict(b);
    case DoBlock(b) => CanonAllSameDict(b);
    case Match(subj, cs) =>
      var ds := CanonCases(cs);
      forall k | 0 <= k < |cs| ensures CaseFields(ds[k]) == CaseFields(cs[k]) {
        CanonAllSameDict(cs[k].body);
      }
      assert CasesToDict(ds) == CasesToDict(cs);
    case MacroDef(_, _, b) => CanonAllSameDict(b);
    case _ =>
  }

  lemma {:induction false} CanonElseSameDict(o: Else)
    ensures ElseToDict(CanonElse(o)) == ElseToDict(o)
    decreases o
  {
    match o
    case ElseBlock(ss) => CanonAllSameDict(ss);
    case NoElse =>
  }

  lemma {:induction false} CanonAllSameDict(ss: seq<Stmt>)
    ensures StmtsToDict(CanonAll(ss)) == StmtsToDict(ss)
    decreases ss
  {
    forall k | 0 <= k < |ss| ensures StmtToDict(CanonAll(ss)[k]) == StmtToDict(ss[k]) {
      CanonSameDict(ss[k]);
    }
  }

  /** An `if` with an empty else list and one with none serialise alike: the
      else branch is written as `null` in both. */
  lemma EmptyElseForgotten(c: Expr, b: seq<Stmt>)
    ensures StmtToDict(If(c, b, ElseBlock([]))) == StmtToDict(If(c, b, NoElse))
    ensures If(c, b, ElseBlock([])) != If(c, b, NoElse)
  {
  }

  /** The else branch is serialised as `null` when missing or empty and as the
      list of its statements otherwise. */
  lemma IfOrelseField(s: Stmt)
    requires s.If?
    ensures var f := StmtToDict(s).fields[0].1.fields;
      && |f| == 3 && f[2].0 == "orelse"
      && (!HasElse(s.orelse) ==> f[2].1 == JNull)
      && (HasElse(s.orelse) ==> f[2].1 == JList(StmtsToDict(s.orelse.stmts)))
  {
    assert StmtToDict(s).fields[0].1.fields[2].1 == ElseToDict(s.orelse);
  }
  /** `is_async` is always present in a function's serialisation, and is false
      unless requested. */
  lemma FunctionDefAsyncField(n: string, ps: seq<string>, b: seq<Stmt>, a: bool)
    ensures StmtToDict(FunctionDef(n, ps, b, a)).fields[0].1.fields[2] == ("is_async", JBool(a))
    ensures FunctionDef(n, ps, b).isAsync == false
  {
  }
}
