/** `expand_macros` as the source runs it: the fresh-name counter and the
    stack of macro frames are fields that the methods update, a block pushes
    its own frame and pops it when it ends, and the bodies are walked with
    loops that append to an output list. Each method is proved to compute the
    corresponding function of module `Macros`, with the counter left where
    that function says. */
module MacroExpander {
  import opened Wrappers
  import opened Ast
  import opened Macros
  import MacroFacts

  /** `_collect_local_bindings(s, acc)`: the names `s` declares are added to
      `acc`, one body statement at a time. */
  method CollectLocalBindings(s: Stmt, acc: seq<string>) returns (r: seq<string>)
    ensures r == Collect(s, acc)
    decreases s
  {
    match s
    case Assign(n, _) =>
      r := Add(acc, n);
    case FunctionDef(n, ps, b, _) =>
      r := Add(acc, n);
      var i := 0;
      while i < |ps|
        invariant i <= |ps|
        invariant AddAll(r, ps[i..]) == AddAll(Add(acc, n), ps)
      {
        assert ps[i..][1..] == ps[i + 1..];
        r := Add(r, ps[i]);
        i := i + 1;
      }
      r := CollectAll(b, r);
    case ForLoop(v, _, b) =>
      r := CollectAll(b, Add(acc, v));
    case DoBlock(b) =>
      r := CollectAll(b, acc);
    case If(_, b, o) =>
      r := CollectAll(b, acc);
      if o.ElseBlock? {
        r := CollectAll(o.stmts, r);
      }
    case While(_, b) =>
      r := CollectAll(b, acc);
    case _ =>
      r := acc;
  }

  /** The loop `for s in body: _collect_local_bindings(s, acc)`. */
  method CollectAll(ss: seq<Stmt>, acc: seq<string>) returns (r: seq<string>)
    ensures r == CollectBody(ss, acc)
    decreases ss
  {
    r := acc;
    var i := 0;
    while i < |ss|
      invariant i <= |ss|
      invariant CollectBody(ss[i..], r) == CollectBody(ss, acc)
    {
      assert ss[i..][1..] == ss[i + 1..];
      r := CollectLocalBindings(ss[i], r);
      i := i + 1;
    }
  }

  /** `out` put in front of the statements of a successful expansion. */
  function Prepend(out: seq<Stmt>, r: Expansion): (p: Expansion)
    ensures p.Err? <==> r.Err?
    ensures r.Err? ==> p == r
    ensures r.Ok? ==> p.value.value == out + r.value.value && p.value.uid == r.value.uid
  {
    match r
    case Ok(c) => Ok(Counted(out + c.value, c.uid))
    case Err(e) => Err(e)
  }

  lemma PrependNothing(r: Expansion)
    ensures Prepend([], r) == r
  {
    if r.Ok? {
      assert [] + r.value.value == r.value.value;
    }
  }

  lemma PrependTwice(out: seq<Stmt>, h: seq<Stmt>, r: Expansion)
    ensures Prepend(out, Prepend(h, r)) == Prepend(out + h, r)
  {
    if r.Ok? {
      assert out + (h + r.value.value) == (out + h) + r.value.value;
    }
  }

  /** `out` put in front of the cases of a successful expansion. */
  function PrependCases(out: seq<MatchCase>, r: Result<Counted<seq<MatchCase>>, ExpandError>): Result<Counted<seq<MatchCase>>, ExpandError> {
    match r
    case Ok(c) => Ok(Counted(out + c.value, c.uid))
    case Err(e) => Err(e)
  }

  lemma PrependCasesNothing(r: Result<Counted<seq<MatchCase>>, ExpandError>)
    ensures PrependCases([], r) == r
  {
    if r.Ok? {
      assert [] + r.value.value == r.value.value;
    }
  }

  lemma PrependCasesTwice(out: seq<MatchCase>, c: MatchCase, r: Result<Counted<seq<MatchCase>>, ExpandError>)
    ensures PrependCases(out, PrependCases([c], r)) == PrependCases(out + [c], r)
  {
    if r.Ok? {
      assert out + ([c] + r.value.value) == (out + [c]) + r.value.value;
    }
  }

  predicate CasesAgree(r: Result<seq<MatchCase>, ExpandError>, spec: Result<Counted<seq<MatchCase>>, ExpandError>, uid: nat) {
    match spec
    case Ok(c) => r == Ok(c.value) && uid == c.uid
    case Err(e) => r == Err(e)
  }

  lemma CasesStep(env: seq<Frame>, cs: seq<MatchCase>, i: nat, uid: nat, fuel: nat)
    requires i < |cs|
    ensures ExpandCases(env, cs[i..], uid, fuel) ==
      match ExpandBlock(env, map[], cs[i].body, uid, fuel)
      case Err(e) => Err(e)
      case Ok(h) => PrependCases([MatchCase(cs[i].pattern, h.value)], ExpandCases(env, cs[i + 1..], h.uid, fuel))
  {
    assert cs[i..][1..] == cs[i + 1..];
  }

  /** What a method returned agrees with an expansion and the counter it ends at. */
  predicate Agrees(r: Result<seq<Stmt>, ExpandError>, spec: Expansion, uid: nat) {
    match spec
    case Ok(c) => r == Ok(c.value) && uid == c.uid
    case Err(e) => r == Err(e)
  }

  lemma BlockStep(env: seq<Frame>, frame: Frame, ss: seq<Stmt>, i: nat, uid: nat, fuel: nat)
    requires i < |ss| && !ss[i].MacroDef?
    ensures ExpandBlock(env, frame, ss[i..], uid, fuel) ==
      match ExpandNode(env + [frame], ss[i], uid, fuel)
      case Err(e) => Err(e)
      case Ok(h) => Prepend(h.value, ExpandBlock(env, frame, ss[i + 1..], h.uid, fuel))
  {
    assert ss[i..][1..] == ss[i + 1..];
  }

  lemma EachStep(env: seq<Frame>, body: seq<Stmt>, m: map<string, Expr>, i: nat, uid: nat, fuel: nat)
    requires i < |body|
    ensures ExpandEach(env, body[i..], m, uid, fuel) ==
      match ExpandNode(env, SubstStmt(body[i], m), uid, fuel)
      case Err(e) => Err(e)
      case Ok(h) => Prepend(h.value, ExpandEach(env, body[i + 1..], m, h.uid, fuel))
  {
    assert body[i..][1..] == body[i + 1..];
  }

  class Expander {
    /** `uid[0]`: the number of fresh names made so far. */
    var uid: nat
    /** `env_stack`: one macro frame per open block, innermost last. */
    var envStack: seq<Frame>

    /** The state `expand_macros` starts from: the counter at zero and one
        empty global frame. */
    constructor ()
      ensures uid == 0 && envStack == [map[]]
    {
      uid := 0;
      envStack := [map[]];
    }

    /** `make_fresh(orig)`: the counter goes up by one and names the new
        binding. */
    method MakeFresh(orig: string) returns (name: string)
      modifies this
      ensures uid == old(uid) + 1 && envStack == old(envStack)
      ensures name == FreshName(orig, uid)
    {
      uid := uid + 1;
      name := FreshName(orig, uid);
    }

    /** `lookup_macro(name, env_stack)`: the frames from the innermost out. */
    method LookupMacro(name: string) returns (r: Option<Macro>)
      ensures r == Lookup(envStack, name)
    {
      var i := |envStack|;
      assert envStack[..i] == envStack;
      while i > 0
        invariant 0 <= i <= |envStack|
        invariant Lookup(envStack, name) == Lookup(envStack[..i], name)
      {
        assert envStack[..i][..i - 1] == envStack[..i - 1];
        if name in envStack[i - 1] {
          return Some(envStack[i - 1][name]);
        }
        i := i - 1;
      }
      return None;
    }

    /** `expand_stmt_list(stmts, env_stack)`: a frame for the block is pushed,
        each `MacroDef` is registered in it, every other statement is expanded
        and its results appended, and the frame is popped again, also when an
        expansion fails. */
    method ExpandStmtList(stmts: seq<Stmt>, fuel: nat) returns (r: Result<seq<Stmt>, ExpandError>)
      modifies this
      ensures envStack == old(envStack)
      ensures Agrees(r, ExpandBlock(old(envStack), map[], stmts, old(uid), fuel), uid)
      decreases fuel, 1, stmts
    {
      ghost var env0 := envStack;
      ghost var uid0 := uid;
      var out: seq<Stmt> := [];
      var localEnv: Frame := map[];
      envStack := envStack + [localEnv];
      var i := 0;
      PrependNothing(ExpandBlock(env0, localEnv, stmts, uid, fuel));
      while i < |stmts|
        invariant i <= |stmts|
        invariant envStack == env0 + [localEnv]
        invariant ExpandBlock(env0, map[], stmts, uid0, fuel) == Prepend(out, ExpandBlock(env0, localEnv, stmts[i..], uid, fuel))
      {
        var s := stmts[i];
        if s.MacroDef? {
          assert stmts[i..][1..] == stmts[i + 1..];
          localEnv := localEnv[s.name := Macro(s.params, s.body)];
          envStack := envStack[..|envStack| - 1] + [localEnv];
        } else {
          BlockStep(env0, localEnv, stmts, i, uid, fuel);
          var res := ExpandStatement(s, fuel);
          if res.Err? {
            assert (env0 + [localEnv])[..|env0|] == env0;
            envStack := envStack[..|envStack| - 1];
            return Err(res.error);
          }
          PrependTwice(out, res.value, ExpandBlock(env0, localEnv, stmts[i + 1..], uid, fuel));
          out := out + res.value;
        }
        i := i + 1;
      }
      assert stmts[i..] == [] && out + [] == out;
      assert (env0 + [localEnv])[..|env0|] == env0;
      envStack := envStack[..|envStack| - 1];
      return Ok(out);
    }

    /** `expand_node(node, env_stack)`. */
    method ExpandStatement(s: Stmt, fuel: nat) returns (r: Result<seq<Stmt>, ExpandError>)
      modifies this
      ensures envStack == old(envStack)
      ensures Agrees(r, ExpandNode(old(envStack), s, old(uid), fuel), uid)
      decreases fuel, 1, s
    {
      match s
      case MacroCall(n, args) =>
        r := ExpandCall(n, args, fuel);
      case FunctionDef(n, ps, b, a) =>
        var body := ExpandStmtList(b, fuel);
        if body.Err? { return Err(body.error); }
        return Ok([FunctionDef(n, ps, body.value, a)]);
      case DoBlock(b) =>
        var body := ExpandStmtList(b, fuel);
        if body.Err? { return Err(body.error); }
        return Ok([DoBlock(body.value)]);
      case If(c, b, o) =>
        MacroFacts.SubstNothing(c);
        var cond := SubstExpr(c, map[]);
        var body := ExpandStmtList(b, fuel);
        if body.Err? { return Err(body.error); }
        if HasElse(o) {
          var orelse := ExpandStmtList(o.stmts, fuel);
          if orelse.Err? { return Err(orelse.error); }
          return Ok([If(cond, body.value, ElseBlock(orelse.value))]);
        }
        return Ok([If(cond, body.value, NoElse)]);
      case While(c, b) =>
        MacroFacts.SubstNothing(c);
        var cond := SubstExpr(c, map[]);
        var body := ExpandStmtList(b, fuel);
        if body.Err? { return Err(body.error); }
        return Ok([While(cond, body.value)]);
      case ForLoop(v, e, b) =>
        MacroFacts.SubstNothing(e);
        var end := SubstExpr(e, map[]);
        var body := ExpandStmtList(b, fuel);
        if body.Err? { return Err(body.error); }
        return Ok([ForLoop(v, end, body.value)]);
      case Match(subj, cs) =>
        MacroFacts.SubstNothing(subj);
        var subject := SubstExpr(subj, map[]);
        var cases := ExpandMatchCases(cs, fuel);
        if cases.Err? { return Err(cases.error); }
        return Ok([Match(subject, cases.value)]);
      case Say(t) =>
        MacroFacts.SubstNothing(t);
        return Ok([Say(SubstExpr(t, map[]))]);
      case Print(t) =>
        MacroFacts.SubstNothing(t);
        return Ok([Print(SubstExpr(t, map[]))]);
      case Assign(x, v) =>
        MacroFacts.SubstNothing(v);
        return Ok([Assign(x, SubstExpr(v, map[]))]);
      case Return(v) =>
        MacroFacts.SubstNothing(v);
        return Ok([Return(SubstExpr(v, map[]))]);
      case _ =>
        return Ok([s]);
    }

    /** The loop over the cases of a `Match`: each body is a block of its own. */
    method ExpandMatchCases(cs: seq<MatchCase>, fuel: nat) returns (r: Result<seq<MatchCase>, ExpandError>)
      modifies this
      ensures envStack == old(envStack)
      ensures CasesAgree(r, ExpandCases(old(envStack), cs, old(uid), fuel), uid)
      decreases fuel, 1, cs
    {
      ghost var env0 := envStack;
      var out: seq<MatchCase> := [];
      var i := 0;
      PrependCasesNothing(ExpandCases(env0, cs, uid, fuel));
      while i < |cs|
        invariant i <= |cs|
        invariant envStack == env0
        invariant ExpandCases(env0, cs, old(uid), fuel) == PrependCases(out, ExpandCases(env0, cs[i..], uid, fuel))
      {
        CasesStep(env0, cs, i, uid, fuel);
        var body := ExpandStmtList(cs[i].body, fuel);
        if body.Err? { return Err(body.error); }
        var c := MatchCase(cs[i].pattern, body.value);
        PrependCasesTwice(out, c, ExpandCases(env0, cs[i + 1..], uid, fuel));
        out := out + [c];
        i := i + 1;
      }
      assert cs[i..] == [] && out + [] == out;
      return Ok(out);
    }

    /** The `MacroCall` branch of `expand_node`: look the macro up, give its
        local bindings fresh names, bind the parameters, then substitute and
        expand the renamed body statement by statement. */
    method ExpandCall(n: string, args: seq<Expr>, fuel: nat) returns (r: Result<seq<Stmt>, ExpandError>)
      modifies this
      ensures envStack == old(envStack)
      ensures Agrees(r, ExpandNode(old(envStack), MacroCall(n, args), old(uid), fuel), uid)
      decreases fuel, 0
    {
      ghost var env0 := envStack;
      ghost var uid0 := uid;
      var found := LookupMacro(n);
      if found.None? {
        return Err(UndefinedMacro(n));
      }
      if fuel == 0 {
        return Err(TooDeep);
      }
      var mac := found.value;
      var bound := CollectAll(mac.body, []);
      var params := set p | p in mac.params;
      var renameMap: map<string, string> := map[];
      var i := 0;
      while i < |bound|
        invariant i <= |bound|
        invariant envStack == env0
        invariant FreshNames(bound[..i], params, uid0) == Counted(renameMap, uid)
      {
        assert bound[..i + 1][..i] == bound[..i];
        var nm := bound[i];
        if nm !in params {
          var name := MakeFresh(nm);
          renameMap := renameMap[nm := name];
        }
        i := i + 1;
      }
      assert bound[..|bound|] == bound;
      var renamed := RenameBody(mac.body, renameMap, params);
      var mapping := BindParams(mac.params, args);
      r := ExpandEachStatement(renamed, mapping, fuel - 1);
    }

    /** `for i, pname in enumerate(macro.params)`: each parameter is bound to
        its argument, or to its own name when there is none. */
    static method BindParams(params: seq<string>, args: seq<Expr>) returns (mapping: map<string, Expr>)
      ensures mapping == ParamMapping(params, args)
    {
      mapping := map[];
      var i := 0;
      while i < |params|
        invariant i <= |params|
        invariant mapping == ParamMapping(params[..i], args)
      {
        assert params[..i + 1][..i] == params[..i];
        mapping := mapping[params[i] := if i < |args| then args[i] else NameExpr(params[i])];
        i := i + 1;
      }
      assert params[..|params|] == params;
    }

    /** `for b in renamed_body`: substitute, expand, and append. */
    method ExpandEachStatement(body: seq<Stmt>, m: map<string, Expr>, fuel: nat) returns (r: Result<seq<Stmt>, ExpandError>)
      modifies this
      ensures envStack == old(envStack)
      ensures Agrees(r, ExpandEach(old(envStack), body, m, old(uid), fuel), uid)
      decreases fuel, 2, body
    {
      ghost var env0 := envStack;
      var expanded: seq<Stmt> := [];
      var i := 0;
      PrependNothing(ExpandEach(env0, body, m, uid, fuel));
      while i < |body|
        invariant i <= |body|
        invariant envStack == env0
        invariant ExpandEach(env0, body, m, old(uid), fuel) == Prepend(expanded, ExpandEach(env0, body[i..], m, uid, fuel))
      {
        EachStep(env0, body, m, i, uid, fuel);
        var sub := SubstStmt(body[i], m);
        var subExpanded := ExpandStatement(sub, fuel);
        if subExpanded.Err? {
          return Err(subExpanded.error);
        }
        PrependTwice(expanded, subExpanded.value, ExpandEach(env0, body[i + 1..], m, uid, fuel));
        expanded := expanded + subExpanded.value;
        i := i + 1;
      }
      assert body[i..] == [] && expanded + [] == expanded;
      return Ok(expanded);
    }
  }

  /** `expand_macros(program)`: a fresh expander over one empty global frame
      expands the program's statements. */
  method ExpandProgram(p: Program, fuel: nat) returns (r: Result<Program, ExpandError>)
    ensures r == ExpandMacros(p, fuel)
  {
    var e := new Expander();
    var out := e.ExpandStmtList(p.statements, fuel);
    if out.Err? {
      return Err(out.error);
    }
    return Ok(Program(out.value));
  }
}
