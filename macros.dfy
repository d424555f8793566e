/** The macro expander of `metascript/macros.py`: parameter substitution,
    the local bindings of a macro body, their alpha-renaming to fresh names
    and the scoped expansion of `expand_macros`.

    The definitions here are the specification: each threads the fresh-name
    counter `uid` through explicitly and returns its final value. The class
    `Expander` in the `MacroExpander` module carries the counter and the
    environment stack as fields, as the source does, and is proved to compute
    exactly these functions. */
module Macros {
  import opened Wrappers
  import opened Text
  import opened Ast

  // ---------------------------------------------------------------------------
  // _substitute_expr / _substitute_node

  /** `_substitute_expr(e, mapping)`: every `NameExpr` whose name is mapped is
      replaced by the mapped expression. The Python copies every other node;
      a copy is the identity on values. */
  function SubstExpr(e: Expr, m: map<string, Expr>): Expr {
    match e
    case NameExpr(id) => if id in m then m[id] else e
    case ListLiteral(xs) => ListLiteral(seq(|xs|, k requires 0 <= k < |xs| => SubstExpr(xs[k], m)))
    case FunctionCall(n, args) => FunctionCall(n, seq(|args|, k requires 0 <= k < |args| => SubstExpr(args[k], m)))
    case BinaryOp(op, l, r) => BinaryOp(op, SubstExpr(l, m), SubstExpr(r, m))
    case UnaryOp(op, x) => UnaryOp(op, SubstExpr(x, m))
    case Await(x) => Await(SubstExpr(x, m))
    case _ => e
  }

  function SubstExprs(es: seq<Expr>, m: map<string, Expr>): (r: seq<Expr>)
    ensures |r| == |es| && forall k :: 0 <= k < |es| ==> r[k] == SubstExpr(es[k], m)
  {
    seq(|es|, k requires 0 <= k < |es| => SubstExpr(es[k], m))
  }

  /** `_substitute_node(s, mapping)`. An expression standing as a statement is
      substituted only when it is a call, a binary operation or a list, the
      three expression kinds `_substitute_node` lists; a bare name, an
      `await` or a unary operation standing alone is copied unchanged. An
      empty `else` list becomes `None`. */
  function SubstStmt(s: Stmt, m: map<string, Expr>): Stmt {
    match s
    case Say(t) => Say(SubstExpr(t, m))
    case Print(t) => Print(SubstExpr(t, m))
    case Assign(n, v) => Assign(n, SubstExpr(v, m))
    case Return(v) => Return(SubstExpr(v, m))
    case ExprStmt(e) =>
      if e.FunctionCall? || e.BinaryOp? || e.ListLiteral? then ExprStmt(SubstExpr(e, m)) else s
    case If(c, b, o) =>
      If(SubstExpr(c, m), SubstBody(b, m), if HasElse(o) then ElseBlock(SubstBody(o.stmts, m)) else NoElse)
    case While(c, b) => While(SubstExpr(c, m), SubstBody(b, m))
    case ForLoop(v, e, b) => ForLoop(v, SubstExpr(e, m), SubstBody(b, m))
    case FunctionDef(n, ps, b, a) => FunctionDef(n, ps, SubstBody(b, m), a)
    case DoBlock(b) => DoBlock(SubstBody(b, m))
    case Match(subj, cs) => Match(SubstExpr(subj, m), SubstCases(cs, m))
    case AgentCall(_, _) => s
    case MacroCall(n, args) => MacroCall(n, SubstExprs(args, m))
    case MacroDef(n, ps, b) => MacroDef(n, ps, SubstBody(b, m))
  }

  function SubstBody(ss: seq<Stmt>, m: map<string, Expr>): (r: seq<Stmt>)
    ensures |r| == |ss|
  {
    if ss == [] then [] else [SubstStmt(ss[0], m)] + SubstBody(ss[1..], m)
  }

  function SubstCases(cs: seq<MatchCase>, m: map<string, Expr>): (r: seq<MatchCase>)
    ensures |r| == |cs|
  {
    if cs == [] then []
    else [MatchCase(cs[0].pattern, SubstBody(cs[0].body, m))] + SubstCases(cs[1..], m)
  }

  // ---------------------------------------------------------------------------
  // _fresh_name

  /** `_fresh_name(base, counter)` once the counter has reached `k`. */
  function FreshName(base: string, k: nat): string {
    "__ms_macro_" + base + "_" + NatToString(k)
  }

  // ---------------------------------------------------------------------------
  // _collect_local_bindings

  /** The names a statement declares, as a set: assignment targets, function
      names and parameters and loop variables, looking into function, loop,
      `do`, `if` (both branches) and `while` bodies. `Match` is looked at only
      for a `body` and an `orelse` it does not have, so nothing bound in a
      case is collected. */
  function Bindings(s: Stmt): set<string> {
    match s
    case Assign(n, _) => {n}
    case FunctionDef(n, ps, b, _) => {n} + (set p | p in ps) + BodyBindings(b)
    case ForLoop(v, _, b) => {v} + BodyBindings(b)
    case DoBlock(b) => BodyBindings(b)
    case If(_, b, o) => BodyBindings(b) + (if o.ElseBlock? then BodyBindings(o.stmts) else {})
    case While(_, b) => BodyBindings(b)
    case _ => {}
  }

  function BodyBindings(ss: seq<Stmt>): set<string> {
    if ss == [] then {} else Bindings(ss[0]) + BodyBindings(ss[1..])
  }

  /** Adds a name to a list of distinct names, as `set.add` does. */
  function Add(acc: seq<string>, n: string): seq<string> {
    if n in acc then acc else acc + [n]
  }

  function AddAll(acc: seq<string>, ns: seq<string>): seq<string>
    decreases ns
  {
    if ns == [] then acc else AddAll(Add(acc, ns[0]), ns[1..])
  }

  /** `_collect_local_bindings(s, acc)` with the accumulated set kept as the
      list of its names in the order they were first added. */
  function Collect(s: Stmt, acc: seq<string>): seq<string> {
    match s
    case Assign(n, _) => Add(acc, n)
    case FunctionDef(n, ps, b, _) => CollectBody(b, AddAll(Add(acc, n), ps))
    case ForLoop(v, _, b) => CollectBody(b, Add(acc, v))
    case DoBlock(b) => CollectBody(b, acc)
    case If(_, b, o) => var a := CollectBody(b, acc); if o.ElseBlock? then CollectBody(o.stmts, a) else a
    case While(_, b) => CollectBody(b, acc)
    case _ => acc
  }

  function CollectBody(ss: seq<Stmt>, acc: seq<string>): seq<string> {
    if ss == [] then acc else CollectBody(ss[1..], Collect(ss[0], acc))
  }

  // ---------------------------------------------------------------------------
  // _rename_bound_identifiers

  /** The new name of `x`: renamed when it is in the map and not a parameter. */
  function Renamed(x: string, rm: map<string, string>, ps: set<string>): string {
    if x in rm && x !in ps then rm[x] else x
  }

  /** Renaming inside an expression. A unary operation falls through to the
      copying fallback, so nothing inside it is renamed. */
  function RenameExpr(e: Expr, rm: map<string, string>, ps: set<string>): Expr {
    match e
    case NameExpr(id) => NameExpr(Renamed(id, rm, ps))
    case ListLiteral(xs) => ListLiteral(seq(|xs|, k requires 0 <= k < |xs| => RenameExpr(xs[k], rm, ps)))
    case FunctionCall(n, args) => FunctionCall(n, seq(|args|, k requires 0 <= k < |args| => RenameExpr(args[k], rm, ps)))
    case BinaryOp(op, l, r) => BinaryOp(op, RenameExpr(l, rm, ps), RenameExpr(r, rm, ps))
    case Await(x) => Await(RenameExpr(x, rm, ps))
    case _ => e
  }

  function RenameExprs(es: seq<Expr>, rm: map<string, string>, ps: set<string>): (r: seq<Expr>)
    ensures |r| == |es| && forall k :: 0 <= k < |es| ==> r[k] == RenameExpr(es[k], rm, ps)
  {
    seq(|es|, k requires 0 <= k < |es| => RenameExpr(es[k], rm, ps))
  }

  /** A pattern after renaming: a name pattern, or a name directly inside a
      list pattern, is renamed. */
  function RenamePattern(p: Pattern, rm: map<string, string>, ps: set<string>): Pattern {
    match p
    case NamePattern(n) => NamePattern(Renamed(n, rm, ps))
    case ListPattern(items) =>
      ListPattern(seq(|items|, k requires 0 <= k < |items| =>
        if items[k].NamePattern? then NamePattern(Renamed(items[k].name, rm, ps)) else items[k]))
    case _ => p
  }

  /** `_rename_bound_identifiers(s, rename_map, params)`. A function's
      parameters are looked up in the map without the parameter exclusion;
      `AgentCall` and `MacroDef` are copied unchanged. */
  function RenameStmt(s: Stmt, rm: map<string, string>, ps: set<string>): Stmt {
    match s
    case Assign(n, v) => Assign(Renamed(n, rm, ps), RenameExpr(v, rm, ps))
    case Say(t) => Say(RenameExpr(t, rm, ps))
    case Print(t) => Print(RenameExpr(t, rm, ps))
    case Return(v) => Return(RenameExpr(v, rm, ps))
    case FunctionDef(n, params, b, a) =>
      FunctionDef(Renamed(n, rm, ps), seq(|params|, k requires 0 <= k < |params| =>
        if params[k] in rm then rm[params[k]] else params[k]), RenameBody(b, rm, ps), a)
    case ForLoop(v, e, b) => ForLoop(Renamed(v, rm, ps), RenameExpr(e, rm, ps), RenameBody(b, rm, ps))
    case Match(subj, cs) => Match(RenameExpr(subj, rm, ps), RenameCases(cs, rm, ps))
    case If(c, b, o) =>
      If(RenameExpr(c, rm, ps), RenameBody(b, rm, ps), if HasElse(o) then ElseBlock(RenameBody(o.stmts, rm, ps)) else NoElse)
    case While(c, b) => While(RenameExpr(c, rm, ps), RenameBody(b, rm, ps))
    case DoBlock(b) => DoBlock(RenameBody(b, rm, ps))
    case MacroCall(n, args) => MacroCall(n, RenameExprs(args, rm, ps))
    case ExprStmt(e) => ExprStmt(RenameExpr(e, rm, ps))
    case _ => s
  }

  function RenameBody(ss: seq<Stmt>, rm: map<string, string>, ps: set<string>): (r: seq<Stmt>)
    ensures |r| == |ss|
  {
    if ss == [] then [] else [RenameStmt(ss[0], rm, ps)] + RenameBody(ss[1..], rm, ps)
  }

  function RenameCases(cs: seq<MatchCase>, rm: map<string, string>, ps: set<string>): (r: seq<MatchCase>)
    ensures |r| == |cs|
  {
    if cs == [] then []
    else [MatchCase(RenamePattern(cs[0].pattern, rm, ps), RenameBody(cs[0].body, rm, ps))] + RenameCases(cs[1..], rm, ps)
  }

  // ---------------------------------------------------------------------------
  // expand_macros

  /** A registered macro: the parameters and body of its `MacroDef`. */
  datatype Macro = Macro(params: seq<string>, body: seq<Stmt>)

  /** One block's local macro table. */
  type Frame = map<string, Macro>

  datatype ExpandError =
    | UndefinedMacro(name: string)
    /** The expansion nested deeper than the fuel allows (Python's recursion limit). */
    | TooDeep

  /** A result together with the value of the fresh-name counter after it. */
  datatype Counted<T> = Counted(value: T, uid: nat)

  type Expansion = Result<Counted<seq<Stmt>>, ExpandError>

  /** `lookup_macro`: the frames are searched from the innermost (last) out. */
  function Lookup(env: seq<Frame>, name: string): Option<Macro> {
    if env == [] then None
    else if name in env[|env| - 1] then Some(env[|env| - 1][name])
    else Lookup(env[..|env| - 1], name)
  }

  /** The rename map of a macro call: each collected name that is not a
      parameter gets the next fresh name, in the order the names are
      enumerated. */
  function FreshNames(names: seq<string>, params: set<string>, uid: nat): Counted<map<string, string>>
    decreases |names|
  {
    if names == [] then Counted(map[], uid)
    else
      var nm := names[|names| - 1];
      var init := FreshNames(names[..|names| - 1], params, uid);
      if nm in params then init
      else Counted(init.value[nm := FreshName(nm, init.uid + 1)], init.uid + 1)
  }

  /** The substitution of a macro call: the `i`-th parameter is bound to the
      `i`-th argument, or to its own name when the call has fewer arguments;
      a repeated parameter keeps its last binding. */
  function ParamMapping(params: seq<string>, args: seq<Expr>): map<string, Expr>
    decreases |params|
  {
    if params == [] then map[]
    else
      var i := |params| - 1;
      ParamMapping(params[..i], args)[params[i] := if i < |args| then args[i] else NameExpr(params[i])]
  }

  /** `expand_stmt_list` with the enclosing stack `env` and this block's frame
      so far: a `MacroDef` is registered in the frame and emits nothing;
      every other statement is expanded and its results are appended. */
  function ExpandBlock(env: seq<Frame>, frame: Frame, ss: seq<Stmt>, uid: nat, fuel: nat): Expansion
    decreases fuel, 0, ss
  {
    if ss == [] then Ok(Counted([], uid))
    else if ss[0].MacroDef? then
      ExpandBlock(env, frame[ss[0].name := Macro(ss[0].params, ss[0].body)], ss[1..], uid, fuel)
    else
      match ExpandNode(env + [frame], ss[0], uid, fuel)
      case Err(err) => Err(err)
      case Ok(head) =>
        match ExpandBlock(env, frame, ss[1..], head.uid, fuel)
        case Err(err) => Err(err)
        case Ok(tail) => Ok(Counted(head.value + tail.value, tail.uid))
  }

  /** `expand_node`: a macro call becomes the expansions of its renamed and
      substituted body; blocks are expanded in frames of their own; every
      other statement is kept. */
  function ExpandNode(env: seq<Frame>, s: Stmt, uid: nat, fuel: nat): Expansion
    decreases fuel, 0, s
  {
    match s
    case MacroCall(n, args) =>
      (match Lookup(env, n)
       case None => Err(UndefinedMacro(n))
       case Some(mac) =>
         if fuel == 0 then Err(TooDeep)
         else
           var ps := set p | p in mac.params;
           var names := FreshNames(CollectBody(mac.body, []), ps, uid);
           var renamed := RenameBody(mac.body, names.value, ps);
           ExpandEach(env, renamed, ParamMapping(mac.params, args), names.uid, fuel - 1))
    case FunctionDef(n, ps, b, a) =>
      (match ExpandBlock(env, map[], b, uid, fuel)
       case Err(err) => Err(err)
       case Ok(body) => Ok(Counted([FunctionDef(n, ps, body.value, a)], body.uid)))
    case DoBlock(b) =>
      (match ExpandBlock(env, map[], b, uid, fuel)
       case Err(err) => Err(err)
       case Ok(body) => Ok(Counted([DoBlock(body.value)], body.uid)))
    case If(c, b, o) =>
      (match ExpandBlock(env, map[], b, uid, fuel)
       case Err(err) => Err(err)
       case Ok(body) =>
         if HasElse(o) then
           (match ExpandBlock(env, map[], o.stmts, body.uid, fuel)
            case Err(err) => Err(err)
            case Ok(orelse) => Ok(Counted([If(c, body.value, ElseBlock(orelse.value))], orelse.uid)))
         else Ok(Counted([If(c, body.value, NoElse)], body.uid)))
    case While(c, b) =>
      (match ExpandBlock(env, map[], b, uid, fuel)
       case Err(err) => Err(err)
       case Ok(body) => Ok(Counted([While(c, body.value)], body.uid)))
    case ForLoop(v, e, b) =>
      (match ExpandBlock(env, map[], b, uid, fuel)
       case Err(err) => Err(err)
       case Ok(body) => Ok(Counted([ForLoop(v, e, body.value)], body.uid)))
    case Match(subj, cs) =>
      (match ExpandCases(env, cs, uid, fuel)
       case Err(err) => Err(err)
       case Ok(cases) => Ok(Counted([Match(subj, cases.value)], cases.uid)))
    case _ => Ok(Counted([s], uid))
  }

  /** The cases of a `Match`, each body expanded in a frame of its own, in order. */
  function ExpandCases(env: seq<Frame>, cs: seq<MatchCase>, uid: nat, fuel: nat): Result<Counted<seq<MatchCase>>, ExpandError>
    decreases fuel, 0, cs
  {
    if cs == [] then Ok(Counted([], uid))
    else
      match ExpandBlock(env, map[], cs[0].body, uid, fuel)
      case Err(err) => Err(err)
      case Ok(body) =>
        match ExpandCases(env, cs[1..], body.uid, fuel)
        case Err(err) => Err(err)
        case Ok(rest) => Ok(Counted([MatchCase(cs[0].pattern, body.value)] + rest.value, rest.uid))
  }

  /** The renamed body of a macro, each statement substituted and expanded in
      the caller's environment, the results spliced in order. */
  function ExpandEach(env: seq<Frame>, body: seq<Stmt>, m: map<string, Expr>, uid: nat, fuel: nat): Expansion
    decreases fuel, 1, body
  {
    if body == [] then Ok(Counted([], uid))
    else
      match ExpandNode(env, SubstStmt(body[0], m), uid, fuel)
      case Err(err) => Err(err)
      case Ok(head) =>
        match ExpandEach(env, body[1..], m, head.uid, fuel)
        case Err(err) => Err(err)
        case Ok(tail) => Ok(Counted(head.value + tail.value, tail.uid))
  }

  /** `expand_macros(program)`: an empty global frame, the program's block
      on top of it, and the counter starting at zero. */
  function ExpandMacros(p: Program, fuel: nat): Result<Program, ExpandError> {
    match ExpandBlock([map[]], map[], p.statements, 0, fuel)
    case Err(err) => Err(err)
    case Ok(out) => Ok(Program(out.value))
  }
}
