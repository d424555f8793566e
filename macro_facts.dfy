/** What `expand_macros` promises: innermost-first lookup, the shape and
    distinctness of the fresh names, which names a call renames, what
    substitution does to the names of an expression, the counter only growing,
    and expansion being the identity (up to empty else branches) on trees
    without macros. */
module MacroFacts {
  import opened Wrappers
  import opened Text
  import opened Ast
  import opened Macros

  // ---------------------------------------------------------------------------
  // lookup_macro

  /** Lookup finds a name exactly when some frame defines it, and then gives
      the definition of the innermost such frame. */
  lemma {:induction false} LookupInnermost(env: seq<Frame>, name: string)
    ensures Lookup(env, name).None? <==> forall i :: 0 <= i < |env| ==> name !in env[i]
    ensures forall i :: 0 <= i < |env| && name in env[i] && (forall j :: i < j < |env| ==> name !in env[j]) ==>
      Lookup(env, name) == Some(env[i][name])
    decreases |env|
  {
    if env != [] {
      var n := |env| - 1;
      var outer := env[..n];
      LookupInnermost(outer, name);
      assert forall i :: 0 <= i < n ==> outer[i] == env[i];
    }
  }

  /** A frame pushed on top shadows every outer definition of its names and
      leaves the other names to the outer frames. */
  lemma LookupPushed(env: seq<Frame>, f: Frame, name: string)
    ensures name in f ==> Lookup(env + [f], name) == Some(f[name])
    ensures name !in f ==> Lookup(env + [f], name) == Lookup(env, name)
  {
    assert (env + [f])[..|env|] == env;
  }

  // ---------------------------------------------------------------------------
  // Calls

  /** A call whose name no frame defines fails with `UndefinedMacro`; a call
      that is found but has no nesting depth left fails with `TooDeep`. */
  lemma CallFailures(env: seq<Frame>, n: string, args: seq<Expr>, uid: nat, fuel: nat)
    ensures (forall i :: 0 <= i < |env| ==> n !in env[i]) ==>
      ExpandNode(env, MacroCall(n, args), uid, fuel) == Err(UndefinedMacro(n))
    ensures (exists i :: 0 <= i < |env| && n in env[i]) && fuel == 0 ==>
      ExpandNode(env, MacroCall(n, args), uid, fuel) == Err(TooDeep)
  {
    LookupInnermost(env, n);
  }

  /** `macro twice(x): say x` followed by `@twice("Hi")` leaves exactly
      `say "Hi"`. */
  lemma TwiceExample(fuel: nat)
    requires fuel >= 1
    ensures ExpandMacros(Program([MacroDef("twice", ["x"], [Say(NameExpr("x"))]),
                                  MacroCall("twice", [LiteralString("Hi")])]), fuel)
         == Ok(Program([Say(LiteralString("Hi"))]))
  {
    var def := MacroDef("twice", ["x"], [Say(NameExpr("x"))]);
    var call := MacroCall("twice", [LiteralString("Hi")]);
    var mac := Macro(["x"], [Say(NameExpr("x"))]);
    var frame := map["twice" := mac];
    var env := [map[], frame];
    var ps := set p | p in mac.params;
    assert CollectBody(mac.body, []) == [];
    assert FreshNames([], ps, 0) == Counted(map[], 0);
    assert RenameBody(mac.body, map[], ps) == [Say(NameExpr("x"))];
    var m := ParamMapping(["x"], [LiteralString("Hi")]);
    var said := [Say(LiteralString("Hi"))];
    assert m == map["x" := LiteralString("Hi")];
    assert SubstStmt(Say(NameExpr("x")), m) == said[0];
    assert ExpandNode(env, said[0], 0, fuel - 1) == Ok(Counted(said, 0));
    assert ExpandEach(env, [Say(NameExpr("x"))], m, 0, fuel - 1) == Ok(Counted(said, 0)) by {
      assert [Say(NameExpr("x"))][1..] == [];
      assert ExpandEach(env, [], m, 0, fuel - 1) == Ok(Counted([], 0));
      assert said + [] == said;
    }
    assert ExpandNode([map[]] + [frame], call, 0, fuel) == Ok(Counted(said, 0)) by {
      assert [map[]] + [frame] == env;
    }
    assert ExpandBlock([map[]], frame, [call], 0, fuel) == Ok(Counted(said, 0)) by {
      assert [call][1..] == [];
    }
    assert ExpandBlock([map[]], map[], [def, call], 0, fuel) == Ok(Counted(said, 0)) by {
      assert [def, call][1..] == [call];
    }
  }

  /** A block of one statement other than a definition expands to what the
      statement expands to in the block's frame. */
  lemma BlockOfOne(env: seq<Frame>, frame: Frame, s: Stmt, uid: nat, fuel: nat)
    requires !s.MacroDef?
    ensures ExpandBlock(env, frame, [s], uid, fuel) == ExpandNode(env + [frame], s, uid, fuel)
  {
    assert [s][1..] == [];
    var r := ExpandNode(env + [frame], s, uid, fuel);
    if r.Ok? {
      assert ExpandBlock(env, frame, [], r.value.uid, fuel) == Ok(Counted([], r.value.uid));
      assert r.value.value + [] == r.value.value;
    }
  }

  /** A macro body of one statement expands to what that statement expands
      to once substituted. */
  lemma EachOfOne(env: seq<Frame>, s: Stmt, m: map<string, Expr>, uid: nat, fuel: nat)
    ensures ExpandEach(env, [s], m, uid, fuel) == ExpandNode(env, SubstStmt(s, m), uid, fuel)
  {
    assert [s][1..] == [];
    var r := ExpandNode(env, SubstStmt(s, m), uid, fuel);
    if r.Ok? {
      assert ExpandEach(env, [], m, r.value.uid, fuel) == Ok(Counted([], r.value.uid));
      assert r.value.value + [] == r.value.value;
    }
  }

  /** A macro defined in a function's body is expanded inside that body, and
      the same call at the top level, after the function, is undefined. */
  lemma ScopeExample(fuel: nat)
    requires fuel >= 1
    ensures var def := MacroDef("inner", ["x"], [Say(NameExpr("x"))]);
      var f := FunctionDef("f", [], [def, MacroCall("inner", [LiteralString("a")])]);
      && ExpandMacros(Program([f]), fuel) == Ok(Program([FunctionDef("f", [], [Say(LiteralString("a"))])]))
      && ExpandMacros(Program([f, MacroCall("inner", [LiteralString("b")])]), fuel) == Err(UndefinedMacro("inner"))
  {
    var def := MacroDef("inner", ["x"], [Say(NameExpr("x"))]);
    var call := MacroCall("inner", [LiteralString("a")]);
    var f := FunctionDef("f", [], [def, call]);
    var frame := map["inner" := Macro(["x"], [Say(NameExpr("x"))])];
    var top: seq<Frame> := [map[], map[]];
    var said := [Say(LiteralString("a"))];
    ScopeCall(top, fuel);
    BlockOfOne(top, frame, call, 0, fuel);
    assert [def, call][1..] == [call];
    assert ExpandBlock(top, map[], [def, call], 0, fuel) == Ok(Counted(said, 0));
    var g := FunctionDef("f", [], said);
    assert [map[]] + [map[]] == top;
    assert ExpandNode(top, f, 0, fuel) == Ok(Counted([g], 0));
    BlockOfOne([map[]], map[], f, 0, fuel);
    LookupInnermost(top, "inner");
    var bad := MacroCall("inner", [LiteralString("b")]);
    assert ExpandNode(top, bad, 0, fuel) == Err(UndefinedMacro("inner"));
    BlockOfOne([map[]], map[], bad, 0, fuel);
    assert [f, bad][1..] == [bad];
  }

  lemma ScopeCall(top: seq<Frame>, fuel: nat)
    requires fuel >= 1 && top == [map[], map[]]
    ensures var frame := map["inner" := Macro(["x"], [Say(NameExpr("x"))])];
      ExpandNode(top + [frame], MacroCall("inner", [LiteralString("a")]), 0, fuel) == Ok(Counted([Say(LiteralString("a"))], 0))
  {
    var mac := Macro(["x"], [Say(NameExpr("x"))]);
    var frame := map["inner" := mac];
    var ps := set p | p in mac.params;
    assert CollectBody(mac.body, []) == [];
    assert FreshNames([], ps, 0) == Counted(map[], 0);
    assert RenameBody(mac.body, map[], ps) == [Say(NameExpr("x"))];
    var m := map["x" := LiteralString("a")];
    assert ParamMapping(["x"], [LiteralString("a")]) == m;
    EachOfOne(top + [frame], Say(NameExpr("x")), m, 0, fuel - 1);
    LookupPushed(top, frame, "inner");
  }

  /** `let tmp = 99`, then `macro m(x): let tmp = x` and `@m(1)`: the
      macro's own `tmp` becomes `__ms_macro_tmp_1` and the outer one is left
      alone. */
  lemma HygieneExample(fuel: nat)
    requires fuel >= 1
    ensures ExpandMacros(Program([Assign("tmp", LiteralInt(99)),
                                  MacroDef("m", ["x"], [Assign("tmp", NameExpr("x"))]),
                                  MacroCall("m", [LiteralInt(1)])]), fuel)
         == Ok(Program([Assign("tmp", LiteralInt(99)), Assign("__ms_macro_tmp_1", LiteralInt(1))]))
  {
    var outer := Assign("tmp", LiteralInt(99));
    var def := MacroDef("m", ["x"], [Assign("tmp", NameExpr("x"))]);
    var call := MacroCall("m", [LiteralInt(1)]);
    var frame := map["m" := Macro(["x"], [Assign("tmp", NameExpr("x"))])];
    var made := [Assign("__ms_macro_tmp_1", LiteralInt(1))];
    HygieneCall([map[]] + [frame], fuel);
    BlockOfOne([map[]], frame, call, 0, fuel);
    var prog := [outer, def, call];
    assert prog[1..] == [def, call] && prog[1..][1..] == [call];
    assert ExpandNode([map[]] + [map[]], outer, 0, fuel) == Ok(Counted([outer], 0));
    assert ExpandBlock([map[]], map[], [def, call], 0, fuel) == Ok(Counted(made, 1));
    assert [outer] + made == [outer, made[0]];
  }

  lemma HygieneCall(env: seq<Frame>, fuel: nat)
    requires fuel >= 1
    requires env == [map[]] + [map["m" := Macro(["x"], [Assign("tmp", NameExpr("x"))])]]
    ensures ExpandNode(env, MacroCall("m", [LiteralInt(1)]), 0, fuel)
         == Ok(Counted([Assign("__ms_macro_tmp_1", LiteralInt(1))], 1))
  {
    var mac := Macro(["x"], [Assign("tmp", NameExpr("x"))]);
    var ps := set p | p in mac.params;
    var renamed := Assign("__ms_macro_tmp_1", NameExpr("x"));
    HygieneRenaming(mac, ps);
    var m := map["x" := LiteralInt(1)];
    assert ParamMapping(["x"], [LiteralInt(1)]) == m;
    EachOfOne(env, renamed, m, 1, fuel - 1);
    assert Lookup(env, "m") == Some(mac);
    CallExpands(env, "m", [LiteralInt(1)], 0, fuel, mac, ps);
  }

  lemma HygieneRenaming(mac: Macro, ps: set<string>)
    requires mac == Macro(["x"], [Assign("tmp", NameExpr("x"))]) && ps == {"x"}
    ensures var names := FreshNames(CollectBody(mac.body, []), ps, 0);
      names.uid == 1 && RenameBody(mac.body, names.value, ps) == [Assign("__ms_macro_tmp_1", NameExpr("x"))]
  {
    assert CollectBody(mac.body, []) == ["tmp"] by {
      assert mac.body[1..] == [];
    }
    assert NatToString(1) == "1";
    assert FreshName("tmp", 1) == "__ms_macro_tmp_1";
    FreshNamesOfOne("tmp", ps, 0);
    var rm := map["tmp" := "__ms_macro_tmp_1"];
    assert RenameBody(mac.body, rm, ps) == [Assign("__ms_macro_tmp_1", NameExpr("x"))] by {
      assert mac.body[1..] == [];
    }
  }

  /** A `macro` written directly in a macro's body is not consumed by the
      expansion of a call: it comes out as a statement of the result. */
  lemma NestedDefinitionSurvives(fuel: nat)
    requires fuel >= 1
    ensures var d := MacroDef("inner", [], [Say(LiteralString("x"))]);
      ExpandMacros(Program([MacroDef("outer", [], [d]), MacroCall("outer", [])]), fuel) == Ok(Program([d]))
  {
    var d := MacroDef("inner", [], [Say(LiteralString("x"))]);
    var def := MacroDef("outer", [], [d]);
    var call := MacroCall("outer", []);
    var mac := Macro([], [d]);
    var frame := map["outer" := mac];
    var env := [map[]] + [frame];
    var ps := set p | p in mac.params;
    assert CollectBody(mac.body, []) == [] by {
      assert mac.body[1..] == [];
    }
    assert FreshNames([], ps, 0) == Counted(map[], 0);
    assert RenameBody(mac.body, map[], ps) == [d];
    assert ParamMapping([], []) == map[];
    assert SubstBody([Say(LiteralString("x"))], map[]) == [Say(LiteralString("x"))] by {
      assert [Say(LiteralString("x"))][1..] == [];
    }
    assert SubstStmt(d, map[]) == d;
    EachOfOne(env, d, map[], 0, fuel - 1);
    assert ExpandNode(env, call, 0, fuel) == Ok(Counted([d], 0));
    BlockOfOne([map[]], frame, call, 0, fuel);
    assert [def, call][1..] == [call];
  }

  /** A name bound by a `case` pattern inside a macro body is not collected
      and so is not renamed, while a name the body assigns is. */
  lemma CaseBindingNotRenamed(fuel: nat)
    requires fuel >= 1
    ensures var body := [Assign("t", LiteralInt(0)),
                         Match(NameExpr("t"), [MatchCase(NamePattern("y"), [Say(NameExpr("y"))])])];
      ExpandMacros(Program([MacroDef("m", [], body), MacroCall("m", [])]), fuel)
      == Ok(Program([Assign("__ms_macro_t_1", LiteralInt(0)),
                     Match(NameExpr("__ms_macro_t_1"), [MatchCase(NamePattern("y"), [Say(NameExpr("y"))])])]))
  {
    var cases := [MatchCase(NamePattern("y"), [Say(NameExpr("y"))])];
    var body := [Assign("t", LiteralInt(0)), Match(NameExpr("t"), cases)];
    var def := MacroDef("m", [], body);
    var call := MacroCall("m", []);
    var frame := map["m" := Macro([], body)];
    var renamed := [Assign("__ms_macro_t_1", LiteralInt(0)), Match(NameExpr("__ms_macro_t_1"), cases)];
    CaseCall([map[]] + [frame], body, renamed, fuel);
    BlockOfOne([map[]], frame, call, 0, fuel);
    assert [def, call][1..] == [call];
  }

  lemma CaseCall(env: seq<Frame>, body: seq<Stmt>, renamed: seq<Stmt>, fuel: nat)
    requires fuel >= 1
    requires body == [Assign("t", LiteralInt(0)), Match(NameExpr("t"), [MatchCase(NamePattern("y"), [Say(NameExpr("y"))])])]
    requires renamed == [Assign("__ms_macro_t_1", LiteralInt(0)), Match(NameExpr("__ms_macro_t_1"), [MatchCase(NamePattern("y"), [Say(NameExpr("y"))])])]
    requires env == [map[]] + [map["m" := Macro([], body)]]
    ensures ExpandNode(env, MacroCall("m", []), 0, fuel) == Ok(Counted(renamed, 1))
  {
    var mac := Macro([], body);
    var ps: set<string> := {};
    assert ps == set p | p in mac.params;
    assert Lookup(env, "m") == Some(mac);
    CaseRenaming(body, renamed, ps);
    CallExpands(env, "m", [], 0, fuel, mac, ps);
    assert ParamMapping([], []) == map[];
    CaseEach(env, renamed, fuel - 1);
  }

  /** A call of a macro that is found, with fuel left: its body, renamed, is
      substituted and expanded. */
  lemma CallExpands(env: seq<Frame>, n: string, args: seq<Expr>, uid: nat, fuel: nat, mac: Macro, ps: set<string>)
    requires fuel >= 1 && Lookup(env, n) == Some(mac) && ps == set p | p in mac.params
    ensures var names := FreshNames(CollectBody(mac.body, []), ps, uid);
      ExpandNode(env, MacroCall(n, args), uid, fuel)
      == ExpandEach(env, RenameBody(mac.body, names.value, ps), ParamMapping(mac.params, args), names.uid, fuel - 1)
  {
  }

  lemma CaseRenaming(body: seq<Stmt>, renamed: seq<Stmt>, ps: set<string>)
    requires body == [Assign("t", LiteralInt(0)), Match(NameExpr("t"), [MatchCase(NamePattern("y"), [Say(NameExpr("y"))])])]
    requires renamed == [Assign("__ms_macro_t_1", LiteralInt(0)), Match(NameExpr("__ms_macro_t_1"), [MatchCase(NamePattern("y"), [Say(NameExpr("y"))])])]
    requires ps == {}
    ensures FreshNames(CollectBody(body, []), ps, 0) == Counted(map["t" := "__ms_macro_t_1"], 1)
    ensures RenameBody(body, map["t" := "__ms_macro_t_1"], ps) == renamed
  {
    CollectSteps(body);
    assert NatToString(1) == "1";
    assert FreshName("t", 1) == "__ms_macro_t_1";
    FreshNamesOfOne("t", ps, 0);
    RenameSteps(body, map["t" := "__ms_macro_t_1"], ps, renamed);
  }

  lemma CaseEach(env: seq<Frame>, renamed: seq<Stmt>, fuel: nat)
    requires renamed == [Assign("__ms_macro_t_1", LiteralInt(0)), Match(NameExpr("__ms_macro_t_1"), [MatchCase(NamePattern("y"), [Say(NameExpr("y"))])])]
    ensures ExpandEach(env, renamed, map[], 1, fuel) == Ok(Counted(renamed, 1))
  {
    var cases := [MatchCase(NamePattern("y"), [Say(NameExpr("y"))])];
    ExpandCaseBody(env, cases, 1, fuel);
    assert SubstStmt(renamed[1], map[]) == renamed[1];
    EachOfOne(env, renamed[1], map[], 1, fuel);
    assert renamed[1..] == [renamed[1]];
    assert [renamed[0]] + [renamed[1]] == renamed;
  }

  lemma FreshNamesOfOne(nm: string, ps: set<string>, uid: nat)
    requires nm !in ps
    ensures FreshNames([nm], ps, uid) == Counted(map[nm := FreshName(nm, uid + 1)], uid + 1)
  {
    assert [nm][..0] == [];
  }

  lemma CollectSteps(body: seq<Stmt>)
    requires body == [Assign("t", LiteralInt(0)), Match(NameExpr("t"), [MatchCase(NamePattern("y"), [Say(NameExpr("y"))])])]
    ensures CollectBody(body, []) == ["t"]
  {
    assert body[1..][1..] == [];
    assert Collect(body[0], []) == ["t"];
    assert Collect(body[1], ["t"]) == ["t"];
    assert CollectBody(body[1..], ["t"]) == ["t"];
  }

  lemma RenameSteps(body: seq<Stmt>, rm: map<string, string>, ps: set<string>, renamed: seq<Stmt>)
    requires body == [Assign("t", LiteralInt(0)), Match(NameExpr("t"), [MatchCase(NamePattern("y"), [Say(NameExpr("y"))])])]
    requires rm == map["t" := "__ms_macro_t_1"] && ps == {}
    requires renamed == [Assign("__ms_macro_t_1", LiteralInt(0)), Match(NameExpr("__ms_macro_t_1"), [MatchCase(NamePattern("y"), [Say(NameExpr("y"))])])]
    ensures RenameBody(body, rm, ps) == renamed
  {
    var sayY := [Say(NameExpr("y"))];
    var cases := [MatchCase(NamePattern("y"), sayY)];
    assert RenameBody(sayY, rm, ps) == sayY by {
      assert sayY[1..] == [];
    }
    assert RenamePattern(NamePattern("y"), rm, ps) == NamePattern("y");
    assert RenameCases(cases, rm, ps) == cases by {
      assert cases[1..] == [];
    }
    assert RenameStmt(body[0], rm, ps) == renamed[0];
    assert RenameExpr(NameExpr("t"), rm, ps) == NameExpr("__ms_macro_t_1");
    assert RenameStmt(body[1], rm, ps) == renamed[1];
    assert body[1..][1..] == [];
    assert RenameBody(body[1..], rm, ps) == [renamed[1]];
  }

  lemma ExpandCaseBody(env: seq<Frame>, cases: seq<MatchCase>, uid: nat, fuel: nat)
    requires cases == [MatchCase(NamePattern("y"), [Say(NameExpr("y"))])]
    ensures SubstCases(cases, map[]) == cases
    ensures ExpandCases(env, cases, uid, fuel) == Ok(Counted(cases, uid))
  {
    var sayY := [Say(NameExpr("y"))];
    assert cases[1..] == [] && sayY[1..] == [];
    assert SubstBody(sayY, map[]) == sayY;
    BlockOfOne(env, map[], sayY[0], uid, fuel);
    assert ExpandCases(env, [], uid, fuel) == Ok(Counted([], uid));
  }

  // ---------------------------------------------------------------------------
  // _fresh_name

  /** Fresh names are told apart by their counter and their base: the
      counter's digits follow the last underscore. */
  lemma FreshNameInjective(a: string, k: nat, b: string, j: nat)
    requires FreshName(a, k) == FreshName(b, j)
    ensures a == b && k == j
  {
    var da, db := NatToString(k), NatToString(j);
    var u, w := "__ms_macro_" + a + "_", "__ms_macro_" + b + "_";
    var s := FreshName(a, k);
    assert s == u + da && s == w + db;
    TailAfterUnderscore(u, da);
    TailAfterUnderscore(w, db);
    assert da == s[|u|..] == db;
    NatToStringInjective(k, j);
    assert u == s[..|u|] == w;
    assert a == u[11..|u| - 1] == b;
  }

  /** The number of characters after the last underscore. */
  function TailLength(s: string): nat {
    if s == [] || s[|s| - 1] == '_' then 0 else 1 + TailLength(s[..|s| - 1])
  }

  lemma {:induction false} TailAfterUnderscore(u: string, d: string)
    requires u != [] && u[|u| - 1] == '_' && AllDigits(d)
    ensures TailLength(u + d) == |d|
    decreases |d|
  {
    if d != [] {
      var d' := d[..|d| - 1];
      assert (u + d)[..|u + d| - 1] == u + d';
      TailAfterUnderscore(u, d');
    } else {
      assert u + d == u;
    }
  }

  predicate Distinct(xs: seq<string>) {
    forall i, j :: 0 <= i < j < |xs| ==> xs[i] != xs[j]
  }

  /** The rename map of a list of distinct names: every name that is not a
      parameter, and no other, gets a fresh name; the counter moves on by the
      number of names renamed; each new name carries its base and a counter
      value from the range used, so no two names share a new name. */
  lemma FreshNamesSpec(names: seq<string>, params: set<string>, uid: nat)
    requires Distinct(names)
    ensures var r := FreshNames(names, params, uid);
      && r.value.Keys == (set x | x in names && x !in params)
      && r.uid == uid + |r.value.Keys|
      && (forall x :: x in r.value ==> exists k :: uid < k <= r.uid && r.value[x] == FreshName(x, k))
      && (forall x, y :: x in r.value && y in r.value && x != y ==> r.value[x] != r.value[y])
  {
    FreshNamesKeys(names, params, uid);
    FreshNamesValues(names, params, uid);
    var r := FreshNames(names, params, uid);
    forall x, y | x in r.value && y in r.value && r.value[x] == r.value[y]
      ensures x == y
    {
      var k :| uid < k <= r.uid && r.value[x] == FreshName(x, k);
      var j :| uid < j <= r.uid && r.value[y] == FreshName(y, j);
      FreshNameInjective(x, k, y, j);
    }
  }

  lemma FreshNamesKeys(names: seq<string>, params: set<string>, uid: nat)
    requires Distinct(names)
    ensures var r := FreshNames(names, params, uid);
      && r.value.Keys == (set x | x in names && x !in params)
      && r.uid == uid + |r.value.Keys|
  {
    FreshNamesKeySet(names, params, uid);
    FreshNamesCount(names, params, uid);
  }

  lemma {:induction false} FreshNamesKeySet(names: seq<string>, params: set<string>, uid: nat)
    ensures FreshNames(names, params, uid).value.Keys == (set x | x in names && x !in params)
    decreases |names|
  {
    if names != [] {
      var n := |names| - 1;
      var prefix := names[..n];
      var nm := names[n];
      FreshNamesKeySet(prefix, params, uid);
      assert names == prefix + [nm];
      var before := set x | x in prefix && x !in params;
      if nm in params {
        assert (set x | x in names && x !in params) == before;
      } else {
        assert (set x | x in names && x !in params) == before + {nm};
      }
    }
  }

  lemma {:induction false} FreshNamesCount(names: seq<string>, params: set<string>, uid: nat)
    requires Distinct(names)
    ensures var r := FreshNames(names, params, uid); r.uid == uid + |r.value.Keys|
    decreases |names|
  {
    if names != [] {
      var n := |names| - 1;
      var prefix := names[..n];
      var nm := names[n];
      assert Distinct(prefix);
      FreshNamesCount(prefix, params, uid);
      if nm !in params {
        assert nm !in prefix by {
          forall i | 0 <= i < n
            ensures prefix[i] != nm
          {
            assert prefix[i] == names[i];
          }
        }
        FreshNamesKeySet(prefix, params, uid);
        var init := FreshNames(prefix, params, uid);
        AddKey(init.value, nm, FreshName(nm, init.uid + 1));
      }
    }
  }

  /** Adding a new key to a map adds one to its size. */
  lemma AddKey(m: map<string, string>, k: string, v: string)
    requires k !in m
    ensures |m[k := v].Keys| == |m.Keys| + 1
  {
    assert m[k := v].Keys == m.Keys + {k};
  }

  lemma {:induction false} FreshNamesValues(names: seq<string>, params: set<string>, uid: nat)
    ensures var r := FreshNames(names, params, uid);
      && r.uid >= uid
      && forall x :: x in r.value ==> exists k :: uid < k <= r.uid && r.value[x] == FreshName(x, k)
    decreases |names|
  {
    if names != [] {
      var n := |names| - 1;
      var nm := names[n];
      FreshNamesValues(names[..n], params, uid);
      var init := FreshNames(names[..n], params, uid);
      if nm !in params {
        var r := FreshNames(names, params, uid);
        forall x | x in r.value
          ensures exists k :: uid < k <= r.uid && r.value[x] == FreshName(x, k)
        {
          if x == nm {
            assert r.value[x] == FreshName(x, init.uid + 1);
          } else {
            assert r.value[x] == init.value[x];
          }
        }
      }
    }
  }

  /** `FreshNames` never moves the counter back, whatever the names. */
  lemma {:induction false} FreshNamesGrow(names: seq<string>, params: set<string>, uid: nat)
    ensures FreshNames(names, params, uid).uid >= uid
    decreases |names|
  {
    if names != [] {
      FreshNamesGrow(names[..|names| - 1], params, uid);
    }
  }

  // ---------------------------------------------------------------------------
  // _collect_local_bindings

  function Elems(xs: seq<string>): set<string> {
    set x | x in xs
  }

  lemma AddSpec(acc: seq<string>, n: string)
    ensures Elems(Add(acc, n)) == Elems(acc) + {n}
    ensures Distinct(acc) ==> Distinct(Add(acc, n))
  {
  }

  lemma {:induction false} AddAllSpec(acc: seq<string>, ns: seq<string>)
    ensures Elems(AddAll(acc, ns)) == Elems(acc) + Elems(ns)
    ensures Distinct(acc) ==> Distinct(AddAll(acc, ns))
    decreases ns
  {
    if ns != [] {
      AddSpec(acc, ns[0]);
      AddAllSpec(Add(acc, ns[0]), ns[1..]);
      assert Elems(ns) == {ns[0]} + Elems(ns[1..]) by {
        assert ns == [ns[0]] + ns[1..];
      }
    }
  }

  /** The ordered collection holds the names of `Bindings` that were not
      there already, each once. */
  lemma {:induction false} CollectSpec(s: Stmt, acc: seq<string>)
    ensures Elems(Collect(s, acc)) == Elems(acc) + Bindings(s)
    ensures Distinct(acc) ==> Distinct(Collect(s, acc))
    decreases s
  {
    match s
    case Assign(n, _) => AddSpec(acc, n);
    case FunctionDef(n, ps, b, _) =>
      AddSpec(acc, n);
      AddAllSpec(Add(acc, n), ps);
      CollectBodySpec(b, AddAll(Add(acc, n), ps));
      assert Elems(ps) == set p | p in ps;
    case ForLoop(v, _, b) =>
      AddSpec(acc, v);
      CollectBodySpec(b, Add(acc, v));
    case DoBlock(b) => CollectBodySpec(b, acc);
    case If(_, b, o) =>
      CollectBodySpec(b, acc);
      if o.ElseBlock? {
        CollectBodySpec(o.stmts, CollectBody(b, acc));
      }
    case While(_, b) => CollectBodySpec(b, acc);
    case _ =>
  }

  lemma {:induction false} CollectBodySpec(ss: seq<Stmt>, acc: seq<string>)
    ensures Elems(CollectBody(ss, acc)) == Elems(acc) + BodyBindings(ss)
    ensures Distinct(acc) ==> Distinct(CollectBody(ss, acc))
    decreases ss
  {
    if ss != [] {
      CollectSpec(ss[0], acc);
      CollectBodySpec(ss[1..], Collect(ss[0], acc));
    }
  }

  /** At a call, exactly the names the macro body declares, less the
      macro's parameters, are renamed, each to a distinct fresh name. */
  lemma RenamedAtCall(body: seq<Stmt>, params: seq<string>, uid: nat)
    ensures var ps := set p | p in params;
      var r := FreshNames(CollectBody(body, []), ps, uid);
      && r.value.Keys == BodyBindings(body) - ps
      && r.uid == uid + |r.value.Keys|
      && (forall x, y :: x in r.value && y in r.value && x != y ==> r.value[x] != r.value[y])
  {
    var ps := set p | p in params;
    var names := CollectBody(body, []);
    CollectBodySpec(body, []);
    FreshNamesSpec(names, ps, uid);
    assert Elems(names) == BodyBindings(body);
  }

  // ---------------------------------------------------------------------------
  // Names of an expression, renaming and substitution

  /** The names an expression mentions. */
  function Names(e: Expr): set<string> {
    match e
    case NameExpr(id) => {id}
    case ListLiteral(xs) => NamesOf(xs)
    case FunctionCall(_, args) => NamesOf(args)
    case BinaryOp(_, l, r) => Names(l) + Names(r)
    case UnaryOp(_, x) => Names(x)
    case Await(x) => Names(x)
    case _ => {}
  }

  function NamesOf(es: seq<Expr>): set<string> {
    if es == [] then {} else Names(es[0]) + NamesOf(es[1..])
  }

  /** An expression that mentions only parameters is left as it is by the
      renaming of a call, whatever the rename map holds. */
  lemma {:induction false} ParamsKept(e: Expr, rm: map<string, string>, ps: set<string>)
    requires Names(e) <= ps
    ensures RenameExpr(e, rm, ps) == e
    decreases e
  {
    match e
    case ListLiteral(xs) =>
      ParamsKeptAll(xs, rm, ps);
      assert RenameExprs(xs, rm, ps) == xs;
    case FunctionCall(_, args) =>
      ParamsKeptAll(args, rm, ps);
      assert RenameExprs(args, rm, ps) == args;
    case BinaryOp(_, l, r) =>
      ParamsKept(l, rm, ps);
      ParamsKept(r, rm, ps);
    case Await(x) => ParamsKept(x, rm, ps);
    case _ =>
  }

  lemma {:induction false} ParamsKeptAll(es: seq<Expr>, rm: map<string, string>, ps: set<string>)
    requires NamesOf(es) <= ps
    ensures forall k :: 0 <= k < |es| ==> RenameExpr(es[k], rm, ps) == es[k]
    decreases es
  {
    if es != [] {
      ParamsKept(es[0], rm, ps);
      ParamsKeptAll(es[1..], rm, ps);
      assert forall k :: 1 <= k < |es| ==> es[k] == es[1..][k - 1];
    }
  }

  /** The names brought in by the substitution for the mapped names among `s`. */
  function Brought(s: set<string>, m: map<string, Expr>): set<string> {
    set y, x | y in s && y in m && x in Names(m[y]) :: x
  }

  /** After substitution an expression mentions its unmapped names and the
      names of the expressions put in for its mapped ones, and nothing else. */
  lemma {:induction false} SubstNames(e: Expr, m: map<string, Expr>)
    ensures Names(SubstExpr(e, m)) == (Names(e) - m.Keys) + Brought(Names(e), m)
    decreases e
  {
    match e
    case NameExpr(id) =>
      if id in m {
        assert Brought({id}, m) == Names(m[id]);
      } else {
        assert Brought({id}, m) == {};
      }
    case ListLiteral(xs) => SubstNamesAll(xs, m);
    case FunctionCall(_, args) => SubstNamesAll(args, m);
    case BinaryOp(_, l, r) =>
      SubstNames(l, m);
      SubstNames(r, m);
      BroughtUnion(Names(l), Names(r), m);
    case UnaryOp(_, x) => SubstNames(x, m);
    case Await(x) => SubstNames(x, m);
    case _ =>
      assert Brought({}, m) == {};
  }

  lemma {:induction false} SubstNamesAll(es: seq<Expr>, m: map<string, Expr>)
    ensures NamesOf(SubstExprs(es, m)) == (NamesOf(es) - m.Keys) + Brought(NamesOf(es), m)
    decreases es
  {
    if es == [] {
      assert Brought({}, m) == {};
    } else {
      SubstNames(es[0], m);
      SubstNamesAll(es[1..], m);
      assert SubstExprs(es, m)[1..] == SubstExprs(es[1..], m);
      BroughtUnion(Names(es[0]), NamesOf(es[1..]), m);
    }
  }

  lemma BroughtUnion(a: set<string>, b: set<string>, m: map<string, Expr>)
    ensures Brought(a + b, m) == Brought(a, m) + Brought(b, m)
  {
  }

  /** Substituting nothing, as `expand_node` does when it copies a
      condition or an argument, changes nothing. */
  lemma {:induction false} SubstNothing(e: Expr)
    ensures SubstExpr(e, map[]) == e
    decreases e
  {
    match e
    case ListLiteral(xs) =>
      forall k | 0 <= k < |xs| ensures SubstExpr(xs[k], map[]) == xs[k] { SubstNothing(xs[k]); }
      assert SubstExprs(xs, map[]) == xs;
    case FunctionCall(_, args) =>
      forall k | 0 <= k < |args| ensures SubstExpr(args[k], map[]) == args[k] { SubstNothing(args[k]); }
      assert SubstExprs(args, map[]) == args;
    case BinaryOp(_, l, r) =>
      SubstNothing(l);
      SubstNothing(r);
    case UnaryOp(_, x) => SubstNothing(x);
    case Await(x) => SubstNothing(x);
    case _ =>
  }

  /** The substitution of a call binds exactly the parameters; a parameter's
      last position decides its value: the argument there, or the parameter's
      own name when the call has no argument there. */
  lemma ParamMappingSpec(params: seq<string>, args: seq<Expr>)
    ensures ParamMapping(params, args).Keys == Elems(params)
    ensures forall i :: 0 <= i < |params| && (forall j :: i < j < |params| ==> params[j] != params[i]) ==>
      ParamMapping(params, args)[params[i]] == if i < |args| then args[i] else NameExpr(params[i])
  {
    ParamMappingKeys(params, args);
    forall i | 0 <= i < |params| && (forall j :: i < j < |params| ==> params[j] != params[i])
      ensures ParamMapping(params, args)[params[i]] == if i < |args| then args[i] else NameExpr(params[i])
    {
      ParamMappingAt(params, args, i);
    }
  }

  lemma {:induction false} ParamMappingKeys(params: seq<string>, args: seq<Expr>)
    ensures ParamMapping(params, args).Keys == Elems(params)
    decreases |params|
  {
    if params != [] {
      var n := |params| - 1;
      var pre := params[..n];
      ParamMappingKeys(pre, args);
      assert params == pre + [params[n]];
      assert Elems(params) == Elems(pre) + {params[n]};
    }
  }

  lemma {:induction false} ParamMappingAt(params: seq<string>, args: seq<Expr>, i: nat)
    requires i < |params|
    requires forall j :: i < j < |params| ==> params[j] != params[i]
    ensures params[i] in ParamMapping(params, args)
    ensures ParamMapping(params, args)[params[i]] == if i < |args| then args[i] else NameExpr(params[i])
    decreases |params|
  {
    var n := |params| - 1;
    if i < n {
      var pre := params[..n];
      assert params[n] != params[i];
      assert pre[i] == params[i];
      forall j | i < j < |pre|
        ensures pre[j] != pre[i]
      {
        assert pre[j] == params[j];
      }
      ParamMappingAt(pre, args, i);
    }
  }

  // ---------------------------------------------------------------------------
  // The counter

  /** Expansion only moves the fresh-name counter forward, so names made by
      later calls are never those of earlier ones. */
  lemma {:induction false} NodeCounterGrows(env: seq<Frame>, s: Stmt, uid: nat, fuel: nat)
    ensures ExpandNode(env, s, uid, fuel).Ok? ==> ExpandNode(env, s, uid, fuel).value.uid >= uid
    decreases fuel, 0, s
  {
    match s
    case MacroCall(n, args) =>
      var found := Lookup(env, n);
      if found.Some? && fuel > 0 {
        var mac := found.value;
        var ps := set p | p in mac.params;
        var names := FreshNames(CollectBody(mac.body, []), ps, uid);
        FreshNamesGrow(CollectBody(mac.body, []), ps, uid);
        EachCounterGrows(env, RenameBody(mac.body, names.value, ps), ParamMapping(mac.params, args), names.uid, fuel - 1);
      }
    case FunctionDef(_, _, b, _) => BlockCounterGrows(env, map[], b, uid, fuel);
    case DoBlock(b) => BlockCounterGrows(env, map[], b, uid, fuel);
    case If(_, b, o) =>
      BlockCounterGrows(env, map[], b, uid, fuel);
      var r := ExpandBlock(env, map[], b, uid, fuel);
      if r.Ok? && HasElse(o) {
        BlockCounterGrows(env, map[], o.stmts, r.value.uid, fuel);
      }
    case While(_, b) => BlockCounterGrows(env, map[], b, uid, fuel);
    case ForLoop(_, _, b) => BlockCounterGrows(env, map[], b, uid, fuel);
    case Match(_, cs) => CasesCounterGrows(env, cs, uid, fuel);
    case _ =>
  }

  lemma {:induction false} BlockCounterGrows(env: seq<Frame>, frame: Frame, ss: seq<Stmt>, uid: nat, fuel: nat)
    ensures ExpandBlock(env, frame, ss, uid, fuel).Ok? ==> ExpandBlock(env, frame, ss, uid, fuel).value.uid >= uid
    decreases fuel, 0, ss
  {
    if ss != [] {
      if ss[0].MacroDef? {
        BlockCounterGrows(env, frame[ss[0].name := Macro(ss[0].params, ss[0].body)], ss[1..], uid, fuel);
      } else {
        NodeCounterGrows(env + [frame], ss[0], uid, fuel);
        var h := ExpandNode(env + [frame], ss[0], uid, fuel);
        if h.Ok? {
          BlockCounterGrows(env, frame, ss[1..], h.value.uid, fuel);
        }
      }
    }
  }

  lemma {:induction false} CasesCounterGrows(env: seq<Frame>, cs: seq<MatchCase>, uid: nat, fuel: nat)
    ensures ExpandCases(env, cs, uid, fuel).Ok? ==> ExpandCases(env, cs, uid, fuel).value.uid >= uid
    decreases fuel, 0, cs
  {
    if cs != [] {
      BlockCounterGrows(env, map[], cs[0].body, uid, fuel);
      var h := ExpandBlock(env, map[], cs[0].body, uid, fuel);
      if h.Ok? {
        CasesCounterGrows(env, cs[1..], h.value.uid, fuel);
      }
    }
  }

  lemma {:induction false} EachCounterGrows(env: seq<Frame>, body: seq<Stmt>, m: map<string, Expr>, uid: nat, fuel: nat)
    ensures ExpandEach(env, body, m, uid, fuel).Ok? ==> ExpandEach(env, body, m, uid, fuel).value.uid >= uid
    decreases fuel, 1, body
  {
    if body != [] {
      NodeCounterGrows(env, SubstStmt(body[0], m), uid, fuel);
      var h := ExpandNode(env, SubstStmt(body[0], m), uid, fuel);
      if h.Ok? {
        EachCounterGrows(env, body[1..], m, h.value.uid, fuel);
      }
    }
  }

  // ---------------------------------------------------------------------------
  // Fuel

  /** The fuel stands for Python's recursion limit and does nothing else: an
      expansion that does not fail with `TooDeep` gives the same outcome, error
      or result, under any larger fuel. */
  lemma ExpandMacrosFuel(p: Program, f: nat, g: nat)
    requires f <= g
    ensures ExpandMacros(p, f) != Err(TooDeep) ==> ExpandMacros(p, g) == ExpandMacros(p, f)
  {
    BlockFuel([map[]], map[], p.statements, 0, f, g);
  }

  lemma {:induction false} BlockFuel(env: seq<Frame>, frame: Frame, ss: seq<Stmt>, uid: nat, f: nat, g: nat)
    requires f <= g
    ensures ExpandBlock(env, frame, ss, uid, f) != Err(TooDeep) ==>
      ExpandBlock(env, frame, ss, uid, g) == ExpandBlock(env, frame, ss, uid, f)
    decreases f, 0, ss
  {
    if ss != [] {
      if ss[0].MacroDef? {
        BlockFuel(env, frame[ss[0].name := Macro(ss[0].params, ss[0].body)], ss[1..], uid, f, g);
      } else {
        NodeFuel(env + [frame], ss[0], uid, f, g);
        var head := ExpandNode(env + [frame], ss[0], uid, f);
        if head.Ok? {
          BlockFuel(env, frame, ss[1..], head.value.uid, f, g);
        }
      }
    }
  }

  lemma {:induction false} NodeFuel(env: seq<Frame>, s: Stmt, uid: nat, f: nat, g: nat)
    requires f <= g
    ensures ExpandNode(env, s, uid, f) != Err(TooDeep) ==> ExpandNode(env, s, uid, g) == ExpandNode(env, s, uid, f)
    decreases f, 0, s
  {
    match s
    case MacroCall(n, args) =>
      if Lookup(env, n).Some? && f > 0 {
        var mac := Lookup(env, n).value;
        var ps := set p | p in mac.params;
        var names := FreshNames(CollectBody(mac.body, []), ps, uid);
        var renamed := RenameBody(mac.body, names.value, ps);
        EachFuel(env, renamed, ParamMapping(mac.params, args), names.uid, f - 1, g - 1);
      }
    case FunctionDef(_, _, b, _) => BlockFuel(env, map[], b, uid, f, g);
    case DoBlock(b) => BlockFuel(env, map[], b, uid, f, g);
    case If(_, b, o) =>
      BlockFuel(env, map[], b, uid, f, g);
      var body := ExpandBlock(env, map[], b, uid, f);
      if body.Ok? && HasElse(o) {
        BlockFuel(env, map[], o.stmts, body.value.uid, f, g);
      }
    case While(_, b) => BlockFuel(env, map[], b, uid, f, g);
    case ForLoop(_, _, b) => BlockFuel(env, map[], b, uid, f, g);
    case Match(_, cs) => CasesFuel(env, cs, uid, f, g);
    case _ =>
  }

  lemma {:induction false} CasesFuel(env: seq<Frame>, cs: seq<MatchCase>, uid: nat, f: nat, g: nat)
    requires f <= g
    ensures ExpandCases(env, cs, uid, f) != Err(TooDeep) ==> ExpandCases(env, cs, uid, g) == ExpandCases(env, cs, uid, f)
    decreases f, 0, cs
  {
    if cs != [] {
      BlockFuel(env, map[], cs[0].body, uid, f, g);
      var body := ExpandBlock(env, map[], cs[0].body, uid, f);
      if body.Ok? {
        CasesFuel(env, cs[1..], body.value.uid, f, g);
      }
    }
  }

  lemma {:induction false} EachFuel(env: seq<Frame>, body: seq<Stmt>, m: map<string, Expr>, uid: nat, f: nat, g: nat)
    requires f <= g
    ensures ExpandEach(env, body, m, uid, f) != Err(TooDeep) ==> ExpandEach(env, body, m, uid, g) == ExpandEach(env, body, m, uid, f)
    decreases f, 1, body
  {
    if body != [] {
      NodeFuel(env, SubstStmt(body[0], m), uid, f, g);
      var head := ExpandNode(env, SubstStmt(body[0], m), uid, f);
      if head.Ok? {
        EachFuel(env, body[1..], m, head.value.uid, f, g);
      }
    }
  }

  // ---------------------------------------------------------------------------
  // Trees without macros

  /** No macro definition and no macro call anywhere in the statement. */
  predicate MacroFree(s: Stmt) {
    match s
    case MacroCall(_, _) => false
    case MacroDef(_, _, _) => false
    case If(_, b, o) => MacroFreeBody(b) && (o.ElseBlock? ==> MacroFreeBody(o.stmts))
    case While(_, b) => MacroFreeBody(b)
    case ForLoop(_, _, b) => MacroFreeBody(b)
    case FunctionDef(_, _, b, _) => MacroFreeBody(b)
    case DoBlock(b) => MacroFreeBody(b)
    case Match(_, cs) => forall k :: 0 <= k < |cs| ==> MacroFreeBody(cs[k].body)
    case _ => true
  }

  predicate MacroFreeBody(ss: seq<Stmt>) {
    forall k :: 0 <= k < |ss| ==> MacroFree(ss[k])
  }

  /** A statement without macros expands to itself, except that an empty else
      list is dropped; the counter does not move. */
  lemma {:induction false} FreeNodeKept(env: seq<Frame>, s: Stmt, uid: nat, fuel: nat)
    requires MacroFree(s)
    ensures ExpandNode(env, s, uid, fuel) == Ok(Counted([Canon(s)], uid))
    decreases s
  {
    match s
    case FunctionDef(_, _, b, _) => FreeBlockKept(env, map[], b, uid, fuel);
    case DoBlock(b) => FreeBlockKept(env, map[], b, uid, fuel);
    case If(_, b, o) =>
      FreeBlockKept(env, map[], b, uid, fuel);
      if HasElse(o) {
        FreeBlockKept(env, map[], o.stmts, uid, fuel);
      }
    case While(_, b) => FreeBlockKept(env, map[], b, uid, fuel);
    case ForLoop(_, _, b) => FreeBlockKept(env, map[], b, uid, fuel);
    case Match(_, cs) => FreeCasesKept(env, cs, uid, fuel);
    case _ =>
  }

  lemma {:induction false} FreeBlockKept(env: seq<Frame>, frame: Frame, ss: seq<Stmt>, uid: nat, fuel: nat)
    requires MacroFreeBody(ss)
    ensures ExpandBlock(env, frame, ss, uid, fuel) == Ok(Counted(CanonAll(ss), uid))
    decreases ss
  {
    if ss != [] {
      FreeNodeKept(env + [frame], ss[0], uid, fuel);
      FreeBlockKept(env, frame, ss[1..], uid, fuel);
      CanonAllCons(ss);
    }
  }

  lemma CanonAllCons(ss: seq<Stmt>)
    requires ss != []
    ensures CanonAll(ss) == [Canon(ss[0])] + CanonAll(ss[1..])
  {
    var a := CanonAll(ss);
    var b := [Canon(ss[0])] + CanonAll(ss[1..]);
    assert |a| == |b|;
    forall k | 0 <= k < |a|
      ensures a[k] == b[k]
    {
      if k > 0 {
        assert b[k] == CanonAll(ss[1..])[k - 1];
        assert ss[1..][k - 1] == ss[k];
      }
    }
  }

  lemma {:induction false} FreeCasesKept(env: seq<Frame>, cs: seq<MatchCase>, uid: nat, fuel: nat)
    requires forall k :: 0 <= k < |cs| ==> MacroFreeBody(cs[k].body)
    ensures ExpandCases(env, cs, uid, fuel) == Ok(Counted(CanonCases(cs), uid))
    decreases cs
  {
    if cs != [] {
      FreeBlockKept(env, map[], cs[0].body, uid, fuel);
      FreeCasesKept(env, cs[1..], uid, fuel);
    }
  }

  /** Dropping empty else lists twice is dropping them once, and keeps a tree
      free of macros. */
  lemma {:induction false} CanonTwice(s: Stmt)
    ensures Canon(Canon(s)) == Canon(s)
    ensures MacroFree(s) ==> MacroFree(Canon(s))
    decreases s
  {
    match s
    case If(_, b, o) =>
      CanonAllTwice(b);
      if o.ElseBlock? {
        CanonAllTwice(o.stmts);
      }
    case While(_, b) => CanonAllTwice(b);
    case ForLoop(_, _, b) => CanonAllTwice(b);
    case FunctionDef(_, _, b, _) => CanonAllTwice(b);
    case DoBlock(b) => CanonAllTwice(b);
    case Match(_, cs) =>
      forall k | 0 <= k < |cs|
        ensures CanonAll(CanonAll(cs[k].body)) == CanonAll(cs[k].body)
        ensures MacroFreeBody(cs[k].body) ==> MacroFreeBody(CanonAll(cs[k].body))
      {
        CanonAllTwice(cs[k].body);
      }
      assert CanonCases(CanonCases(cs)) == CanonCases(cs);
    case MacroDef(_, _, b) => CanonAllTwice(b);
    case _ =>
  }

  lemma {:induction false} CanonAllTwice(ss: seq<Stmt>)
    ensures CanonAll(CanonAll(ss)) == CanonAll(ss)
    ensures MacroFreeBody(ss) ==> MacroFreeBody(CanonAll(ss))
    decreases ss
  {
    forall k | 0 <= k < |ss|
      ensures Canon(Canon(ss[k])) == Canon(ss[k])
      ensures MacroFree(ss[k]) ==> MacroFree(Canon(ss[k]))
    {
      CanonTwice(ss[k]);
    }
  }

  /** A program without macros expands, at any depth, to itself with empty
      else lists dropped, and expanding that result again changes nothing. */
  lemma ExpandFreeProgram(p: Program, fuel: nat)
    requires MacroFreeBody(p.statements)
    ensures ExpandMacros(p, fuel) == Ok(Program(CanonAll(p.statements)))
    ensures ExpandMacros(Program(CanonAll(p.statements)), fuel) == Ok(Program(CanonAll(p.statements)))
  {
    FreeBlockKept([map[]], map[], p.statements, 0, fuel);
    CanonAllTwice(p.statements);
    FreeBlockKept([map[]], map[], CanonAll(p.statements), 0, fuel);
  }

  /** An `if` whose else branch held only a macro definition keeps an empty
      else list after one expansion and loses it in the next, so expansion is
      not idempotent on every tree it produces. */
  lemma EmptyElseAfterTwoExpansions(fuel: nat)
    ensures var c := NameExpr("c");
      var once := Program([If(c, [], ElseBlock([]))]);
      && ExpandMacros(Program([If(c, [], ElseBlock([MacroDef("m", [], [])]))]), fuel) == Ok(once)
      && ExpandMacros(once, fuel) == Ok(Program([If(c, [], NoElse)]))
  {
    var c := NameExpr("c");
    var env: seq<Frame> := [map[]] + [map[]];
    var first := If(c, [], ElseBlock([MacroDef("m", [], [])]));
    assert ExpandBlock(env, map[], [MacroDef("m", [], [])], 0, fuel) == Ok(Counted([], 0)) by {
      assert [MacroDef("m", [], [])][1..] == [];
    }
    assert ExpandNode(env, first, 0, fuel) == Ok(Counted([If(c, [], ElseBlock([]))], 0));
    BlockOfOne([map[]], map[], first, 0, fuel);
    assert ExpandNode(env, If(c, [], ElseBlock([])), 0, fuel) == Ok(Counted([If(c, [], NoElse)], 0));
    BlockOfOne([map[]], map[], If(c, [], ElseBlock([])), 0, fuel);
  }
}
