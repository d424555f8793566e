/** The built-in agent tools (metascript/agents/tools.py) that compute without
    touching the file system, the network or Python's evaluator: text
    statistics, the resource plan, the simulated run of MetaScript text, the
    registry listing and the dispatcher's answer to an unknown tool name.
    Tools take and return JSON-like dictionaries; a Python exception a tool
    raises is a `Failure`, which the dispatcher turns into an error answer. */
module AgentTools {
  import opened Wrappers
  import opened Text
  import opened Json
  import opened Ast
  import opened Printing
  import opened Unparse
  import opened UnparseFacts

  // ---------------------------------------------------------------------------
  // Python exceptions

  /** The exceptions the modelled code can raise on ill-typed parameters. */
  datatype Failure =
    | NoAttribute(typeName: string, attr: string)  // AttributeError
    | Unhashable(typeName: string)                 // TypeError from a dictionary lookup
    | NoLength(typeName: string)                   // TypeError from `len`

  /** `type(j).__name__`. */
  function TypeName(j: Json): string {
    match j
    case JNull => "NoneType"
    case JBool(_) => "bool"
    case JInt(_) => "int"
    case JStr(_) => "str"
    case JList(_) => "list"
    case JObject(_) => "dict"
  }

  /** `str(e)` for each exception. */
  function Message(f: Failure): string {
    match f
    case NoAttribute(t, a) => "'" + t + "' object has no attribute '" + a + "'"
    case Unhashable(t) => "unhashable type: '" + t + "'"
    case NoLength(t) => "object of type '" + t + "' has no len()"
  }

  /** `{"ok": False, "error": message}`. */
  function ErrorAnswer(message: string): Json {
    JObject([("ok", JBool(false)), ("error", JStr(message))])
  }

  /** The dictionary a tool reads its parameters from: `params.get` raises on anything else. */
  function Params(params: Json): Result<seq<(string, Json)>, Failure> {
    if params.JObject? then Ok(params.fields) else Err(NoAttribute(TypeName(params), "get"))
  }

  // ---------------------------------------------------------------------------
  // Resource plan

  datatype Plan = Plan(cpuMs: int, memoryMb: int)

  function Clamp(lo: int, hi: int, x: int): (r: int)
    requires lo <= hi
    ensures lo <= r <= hi
    ensures lo <= x <= hi ==> r == x
  {
    if x < lo then lo else if x > hi then hi else x
  }

  /** `cpu_ms = max(200, min(20000, 100 * max(1, lines)))` and
      `memory_mb = max(16, min(1024, 10 + lines // 2))`. */
  function PlanForLines(lines: nat): (p: Plan)
    ensures 200 <= p.cpuMs <= 20000 && 16 <= p.memoryMb <= 1024
  {
    Plan(Clamp(200, 20000, 100 * (if lines < 1 then 1 else lines)), Clamp(16, 1024, 10 + lines / 2))
  }

  /** The plan for a text: scaled to its number of lines as `splitlines` counts them.
      The backend agent's `_compute_plan` writes the same formula a second time. */
  function ComputePlan(code: string): (p: Plan)
    ensures 200 <= p.cpuMs <= 20000 && 16 <= p.memoryMb <= 1024
  {
    PlanForLines(|SplitLines(code)|)
  }

  /** More lines never ask for less time or memory. */
  lemma PlanMonotone(m: nat, n: nat)
    requires m <= n
    ensures PlanForLines(m).cpuMs <= PlanForLines(n).cpuMs
    ensures PlanForLines(m).memoryMb <= PlanForLines(n).memoryMb
  {
  }

  /** Putting one more line in front of a text never lowers its plan. */
  lemma PlanGrows(l: string, x: string)
    requires NoLineBreak(l)
    ensures ComputePlan(x).cpuMs <= ComputePlan(l + "\n" + x).cpuMs
    ensures ComputePlan(x).memoryMb <= ComputePlan(l + "\n" + x).memoryMb
  {
    SplitLinesCons(l, x);
    PlanMonotone(|SplitLines(x)|, |SplitLines(l + "\n" + x)|);
  }

  /** Up to two lines get the smallest plan; two hundred lines or more get the largest time budget. */
  lemma PlanEnds(lines: nat)
    ensures lines <= 2 ==> PlanForLines(lines) == Plan(200, 16)
    ensures lines >= 200 ==> PlanForLines(lines).cpuMs == 20000
    ensures 2 <= lines <= 200 ==> PlanForLines(lines).cpuMs == 100 * lines
  {
  }

  /** `{"cpu_ms": ..., "memory_mb": ...}`. */
  function PlanJson(p: Plan): Json {
    JObject([("cpu_ms", JInt(p.cpuMs)), ("memory_mb", JInt(p.memoryMb))])
  }

  /** `get_plan_for_code(params)`: `code.splitlines()` raises unless the code is a string. */
  function GetPlanForCode(params: Json): (r: Result<Json, Failure>)
    ensures params.JObject? && GetOr(params, "code", JStr("")).JStr? ==>
      r == Ok(JObject([("ok", JBool(true)), ("plan", PlanJson(ComputePlan(GetOr(params, "code", JStr("")).s)))]))
    ensures params.JObject? && !GetOr(params, "code", JStr("")).JStr? ==>
      r == Err(NoAttribute(TypeName(GetOr(params, "code", JStr(""))), "splitlines"))
    ensures !params.JObject? ==> r.Err?
  {
    match Params(params)
    case Err(f) => Err(f)
    case Ok(_) =>
      var code := GetOr(params, "code", JStr(""));
      if !code.JStr? then Err(NoAttribute(TypeName(code), "splitlines"))
      else Ok(JObject([("ok", JBool(true)), ("plan", PlanJson(ComputePlan(code.s)))]))
  }

  // ---------------------------------------------------------------------------
  // Text statistics

  datatype Stats = Stats(lines: nat, words: nat, chars: nat)

  /** `text.count("\n") + (1 if text else 0)`, `len(text.split())` and `len(text)`. */
  function TextStats(text: string): Stats {
    Stats(CountChar(text, '\n') + (if text == [] then 0 else 1), |Words(text)|, |text|)
  }

  /** A reference count of words: the positions where a run of non-white-space
      characters starts, scanning left to right. */
  function WordStarts(s: string, afterSpace: bool): nat {
    if s == [] then 0
    else (if afterSpace && !IsSpace(s[0]) then 1 else 0) + WordStarts(s[1..], IsSpace(s[0]))
  }

  /** The words of `split()` are exactly the runs the reference count counts. */
  lemma {:induction false} WordsCounted(s: string)
    ensures |Words(s)| == WordStarts(s, true)
    decreases |s|
  {
    var t := LStrip(s);
    SkipSpaces(s, |s| - |t|);
    if t != [] {
      var n := NonSpaceRun(t);
      WordsCounted(t[n..]);
      SkipRun(t, n);
    }
  }

  /** Leading white space opens no word. */
  lemma {:induction false} SkipSpaces(s: string, i: nat)
    requires i <= |s|
    requires forall k :: 0 <= k < i ==> IsSpace(s[k])
    ensures WordStarts(s, true) == WordStarts(s[i..], true)
  {
    if i > 0 {
      SkipSpaces(s[1..], i - 1);
      assert s[1..][i - 1..] == s[i..];
    }
  }

  /** A run of `n` non-white-space characters at the front, followed by white
      space or nothing, is one word. */
  lemma {:induction false} SkipRun(t: string, n: nat)
    requires 0 < n <= |t|
    requires forall k :: 0 <= k < n ==> !IsSpace(t[k])
    requires n < |t| ==> IsSpace(t[n])
    ensures WordStarts(t, true) == 1 + WordStarts(t[n..], true)
  {
    InsideRun(t[1..], n - 1);
  }

  lemma {:induction false} InsideRun(t: string, n: nat)
    requires n <= |t|
    requires forall k :: 0 <= k < n ==> !IsSpace(t[k])
    requires n < |t| ==> IsSpace(t[n])
    ensures WordStarts(t, false) == WordStarts(t[n..], true)
  {
    if n > 0 {
      InsideRun(t[1..], n - 1);
      assert t[1..][n - 1..] == t[n..];
    } else if t != [] {
      assert IsSpace(t[0]);
    }
  }

  lemma {:induction false} CountAppend(a: string, b: string, c: char)
    ensures CountChar(a + b, c) == CountChar(a, c) + CountChar(b, c)
  {
    if a != [] {
      CountAppend(a[1..], b, c);
      assert (a + b)[1..] == a[1..] + b;
    } else {
      assert a + b == b;
    }
  }

  lemma {:induction false} CountAbsent(a: string, c: char)
    requires c !in a
    ensures CountChar(a, c) == 0
  {
    if a != [] {
      CountAbsent(a[1..], c);
    }
  }

  /** Splitting on a character gives one more piece than it has occurrences. */
  lemma {:induction false} SplitCount(s: string, c: char)
    ensures |Split(s, c)| == CountChar(s, c) + 1
    decreases |s|
  {
    match IndexOf(s, c)
    case None => CountAbsent(s, c);
    case Some(k) =>
      SplitCount(s[k + 1..], c);
      assert s == s[..k] + ([c] + s[k + 1..]);
      CountAppend(s[..k], [c] + s[k + 1..], c);
      CountAbsent(s[..k], c);
  }

  /** The line count of a non-empty text is the number of its `\n`-separated
      pieces; an empty text has none. A final `\n` opens one more line, which
      `splitlines` (and so the plan) does not count. */
  lemma StatsLines(text: string)
    ensures text == [] ==> TextStats(text).lines == 0
    ensures text != [] ==> TextStats(text).lines == |Split(text, '\n')|
  {
    SplitCount(text, '\n');
  }

  /** The word count is the number of starts of non-white-space runs; the
      character count is the length. */
  lemma StatsWords(text: string)
    ensures TextStats(text).words == WordStarts(text, true)
    ensures TextStats(text).chars == |text|
  {
    WordsCounted(text);
  }

  /** `compute_stats({"text": "a b\nc"})` counts two lines, three words and five characters. */
  lemma StatsExample()
    ensures TextStats("a b\nc") == Stats(2, 3, 5)
  {
    StatsWords("a b\nc");
    ExampleStarts();
    ExampleBreaks();
  }

  lemma ExampleStarts()
    ensures WordStarts("a b\nc", true) == 3
  {
    var s := "a b\nc";
    assert s[1..] == " b\nc" && s[2..] == "b\nc" && s[3..] == "\nc" && s[4..] == "c";
    assert WordStarts("c", true) == 1;
    assert WordStarts("\nc", false) == 1;
  }

  lemma ExampleBreaks()
    ensures CountChar("a b\nc", '\n') == 1
  {
    var s := "a b\nc";
    assert s[1..] == " b\nc" && s[2..] == "b\nc" && s[3..] == "\nc" && s[4..] == "c";
  }

  /** `compute_stats(params)` as a dictionary. A missing `text` is the empty
      text; `None` is refused; a list survives `count` but not `split`; any
      other non-string has no `count`. */
  function ComputeStats(params: Json): (r: Result<Json, Failure>)
    ensures params.JObject? && GetOr(params, "text", JStr("")) == JNull ==>
      r == Ok(ErrorAnswer("text is required"))
    ensures params.JObject? && GetOr(params, "text", JStr("")).JStr? ==>
      var st := TextStats(GetOr(params, "text", JStr("")).s);
      r == Ok(JObject([("ok", JBool(true)), ("lines", JInt(st.lines)), ("words", JInt(st.words)), ("chars", JInt(st.chars))]))
    ensures r.Err? <==> !params.JObject? || !(GetOr(params, "text", JStr("")).JStr? || GetOr(params, "text", JStr("")) == JNull)
  {
    match Params(params)
    case Err(f) => Err(f)
    case Ok(_) =>
      var text := GetOr(params, "text", JStr(""));
      match text
      case JNull => Ok(ErrorAnswer("text is required"))
      case JStr(s) =>
        var st := TextStats(s);
        Ok(JObject([("ok", JBool(true)), ("lines", JInt(st.lines)), ("words", JInt(st.words)), ("chars", JInt(st.chars))]))
      case JList(_) => Err(NoAttribute("list", "split"))
      case _ => Err(NoAttribute(TypeName(text), "count"))
  }

  // ---------------------------------------------------------------------------
  // Simulated run

  /** The substrings `simulate_run` refuses, looked for in the lower-cased code. */
  const RunPatterns: seq<string> := ["open(", "exec(", "socket", "requests", "subprocess"]

  /** `any(p in s for p in patterns)`. */
  function ContainsAny(s: string, patterns: seq<string>): bool {
    if patterns == [] then false
    else Contains(s, patterns[0]) || ContainsAny(s, patterns[1..])
  }

  /** Some pattern occurs in the text exactly when `ContainsAny` says so. */
  lemma {:induction false} ContainsAnySpec(s: string, patterns: seq<string>)
    ensures ContainsAny(s, patterns) <==> exists k :: 0 <= k < |patterns| && Contains(s, patterns[k])
  {
    if patterns != [] {
      ContainsAnySpec(s, patterns[1..]);
      if ContainsAny(s, patterns[1..]) {
        var k :| 0 <= k < |patterns| - 1 && Contains(s, patterns[1..][k]);
        assert Contains(s, patterns[k + 1]);
      }
      if exists k :: 0 <= k < |patterns| && Contains(s, patterns[k]) {
        var k :| 0 <= k < |patterns| && Contains(s, patterns[k]);
        if k > 0 {
          assert patterns[1..][k - 1] == patterns[k];
        }
      }
    }
  }

  /** A line whose stripped form starts with `say `. */
  predicate IsSayLine(l: string) {
    StartsWith(Strip(l), "say ")
  }

  /** What a `say` line prints: the rest of its stripped form, without surrounding `"`. */
  function SayText(l: string): string
    requires IsSayLine(l)
  {
    StripChar(Strip(l)[4..], '"')
  }

  /** `[l for l in lines if l.strip().startswith('say ')]`. */
  function SayLines(ls: seq<string>): (r: seq<string>)
    ensures |r| <= |ls|
    ensures forall k :: 0 <= k < |r| ==> IsSayLine(r[k]) && r[k] in ls
    ensures forall l :: l in ls && IsSayLine(l) ==> l in r
  {
    if ls == [] then []
    else (if IsSayLine(ls[0]) then [ls[0]] else []) + SayLines(ls[1..])
  }

  /** The filter keeps the order of the lines and each one as often as it occurs:
      it is applied to a concatenation piece by piece. */
  lemma {:induction false} SayLinesAppend(a: seq<string>, b: seq<string>)
    ensures SayLines(a + b) == SayLines(a) + SayLines(b)
  {
    if a == [] {
      assert a + b == b;
    } else {
      assert (a + b)[1..] == a[1..] + b;
      SayLinesAppend(a[1..], b);
    }
  }

  /** The printed texts of `say` lines, in order. */
  function SayTexts(lines: seq<string>): (r: seq<string>)
    requires forall k :: 0 <= k < |lines| ==> IsSayLine(lines[k])
    ensures |r| == |lines|
    ensures forall k :: 0 <= k < |lines| ==> r[k] == SayText(lines[k])
  {
    seq(|lines|, k requires 0 <= k < |lines| => SayText(lines[k]))
  }

  datatype Simulation = Refused | Ran(stdout: string)

  /** `simulate_run` on a string: refused when a pattern occurs in the lower-cased
      code; otherwise the texts of its `say` lines, one per line. */
  function SimulateRun(code: string): Simulation {
    if ContainsAny(Lower(code), RunPatterns) then Refused
    else Ran(Join(SayTexts(SayLines(SplitLines(code))), "\n"))
  }

  /** The loop of `simulate_run` that collects the printed texts one line at a time. */
  method SayOutputs(lines: seq<string>) returns (out: seq<string>)
    requires forall k :: 0 <= k < |lines| ==> IsSayLine(lines[k])
    ensures out == SayTexts(lines)
  {
    out := [];
    for i := 0 to |lines|
      invariant |out| == i
      invariant forall k :: 0 <= k < i ==> out[k] == SayText(lines[k])
    {
      out := out + [SayText(lines[i])];
    }
  }

  /** `simulate_run` on code it does not refuse: the collected texts joined by line breaks. */
  method SimulatedStdout(code: string) returns (stdout: string)
    requires !ContainsAny(Lower(code), RunPatterns)
    ensures Ran(stdout) == SimulateRun(code)
  {
    var lines := SayLines(SplitLines(code));
    var out := SayOutputs(lines);
    stdout := Join(out, "\n");
  }

  /** The answer of `simulate_run`: exit code 2 on refusal, 0 otherwise. */
  function SimulationJson(s: Simulation): Json {
    match s
    case Refused => JObject([("ok", JBool(false)), ("stderr", JStr("dangerous operations detected")), ("exit_code", JInt(2))])
    case Ran(out) => JObject([("ok", JBool(true)), ("stdout", JStr(out)), ("exit_code", JInt(0))])
  }

  /** `simulate_run(params)`: `code.lower()` raises unless the code is a string. */
  function SimulateRunTool(params: Json): (r: Result<Json, Failure>)
    ensures params.JObject? && GetOr(params, "code", JStr("")).JStr? ==>
      var code := GetOr(params, "code", JStr("")).s;
      r.Ok? && r.value.JObject? && |r.value.fields| == 3
      && (ContainsAny(Lower(code), RunPatterns) <==> r.value.fields[2] == ("exit_code", JInt(2)))
      && (!ContainsAny(Lower(code), RunPatterns) <==> r.value.fields[2] == ("exit_code", JInt(0)))
      && (r.value.fields[0] == ("ok", JBool(true)) <==> !ContainsAny(Lower(code), RunPatterns))
    ensures r.Err? <==> !params.JObject? || !GetOr(params, "code", JStr("")).JStr?
  {
    match Params(params)
    case Err(f) => Err(f)
    case Ok(_) =>
      var code := GetOr(params, "code", JStr(""));
      if !code.JStr? then Err(NoAttribute(TypeName(code), "lower"))
      else Ok(SimulationJson(SimulateRun(code.s)))
  }

  /** A pattern found in any letter case refuses the run. */
  lemma RefusedAnyCase(code: string, k: nat, i: nat)
    requires k < |RunPatterns| && i + |RunPatterns[k]| <= |code|
    requires Lower(code[i..i + |RunPatterns[k]|]) == RunPatterns[k]
    ensures SimulateRun(code) == Refused
  {
    var p := RunPatterns[k];
    assert Lower(code)[i..i + |p|] == Lower(code[i..i + |p|]);
    ContainsAt(Lower(code), p, i);
    ContainsAnySpec(Lower(code), RunPatterns);
  }

  /** `'"' + t + '"'` stripped of quotes is `t` when `t` holds none. */
  lemma StripQuotes(t: string)
    requires '"' !in t
    ensures StripChar("\"" + t + "\"", '"') == t
  {
    var q := "\"" + t + "\"";
    assert q[1..] == t + "\"";
    if t != [] {
      assert (t + "\"")[..|t|] == t;
      assert StripChar(q, '"') == StripChar(t + "\"", '"');
      assert StripChar(t + "\"", '"') == StripChar(t, '"');
      assert t[0] in t && t[|t| - 1] in t;
    } else {
      assert StripChar("\"", '"') == StripChar([], '"');
    }
  }

  /** `say "t"` prints `t`. */
  lemma SayLineText(t: string)
    requires PlainText(t)
    ensures IsSayLine("say " + "\"" + t + "\"")
    ensures SayText("say " + "\"" + t + "\"") == t
  {
    var l := "say " + "\"" + t + "\"";
    assert IsStripped(l);
    assert l[..4] == "say ";
    assert l[4..] == "\"" + t + "\"";
    StripQuotes(t);
  }

  /** Every line is a `say` line: the filter keeps them all. */
  lemma {:induction false} AllSayLines(ls: seq<string>)
    requires forall k :: 0 <= k < |ls| ==> IsSayLine(ls[k])
    ensures SayLines(ls) == ls
  {
    if ls != [] {
      AllSayLines(ls[1..]);
      assert ls == [ls[0]] + ls[1..];
    }
  }

  function Says(ts: seq<string>): (ss: seq<Stmt>)
    ensures |ss| == |ts|
    ensures forall k :: 0 <= k < |ts| ==> ss[k] == Say(LiteralString(ts[k]))
  {
    seq(|ts|, k requires 0 <= k < |ts| => Say(LiteralString(ts[k])))
  }

  /** The lines the unparser writes for `say "t"` statements are `say` lines printing `t`. */
  lemma SayLinesWritten(ts: seq<string>)
    requires forall k :: 0 <= k < |ts| ==> PlainText(ts[k])
    ensures var ls := Lines(Says(ts), 0);
      forall k :: 0 <= k < |ts| ==> NoLineBreak(ls[k]) && IsSayLine(ls[k]) && SayText(ls[k]) == ts[k]
  {
    var ss := Says(ts);
    var ls := Lines(ss, 0);
    forall k | 0 <= k < |ts|
      ensures NoLineBreak(ls[k]) && IsSayLine(ls[k]) && SayText(ls[k]) == ts[k]
    {
      SayLineOf(ss[k], ts[k]);
    }
  }

  lemma SayLineOf(s: Stmt, t: string)
    requires s == Say(LiteralString(t)) && PlainText(t)
    ensures NoLineBreak(UnparseStmt(s, 0)) && IsSayLine(UnparseStmt(s, 0)) && SayText(UnparseStmt(s, 0)) == t
  {
    SimpleLine(s);
    LineShape(s);
    SayLineText(t);
  }

  /** A text whose lines are all `say` lines prints their texts. */
  lemma SimulatedLines(text: string, ls: seq<string>, ts: seq<string>)
    requires SplitLines(text) == ls && |ls| == |ts|
    requires forall k :: 0 <= k < |ls| ==> IsSayLine(ls[k]) && SayText(ls[k]) == ts[k]
    requires !ContainsAny(Lower(text), RunPatterns)
    ensures SimulateRun(text) == Ran(Join(ts, "\n"))
  {
    AllSayLines(ls);
    assert SayTexts(ls) == ts;
  }

  /** The simulated run of a program of `say "t"` statements, as the unparser
      writes it, prints exactly those texts, one per line. */
  lemma SimulatedSays(ts: seq<string>)
    requires forall k :: 0 <= k < |ts| ==> PlainText(ts[k])
    requires !ContainsAny(Lower(UnparseProgram(Program(Says(ts)))), RunPatterns)
    ensures SimulateRun(UnparseProgram(Program(Says(ts)))) == Ran(Join(ts, "\n"))
  {
    var ls := Lines(Says(ts), 0);
    if ts == [] {
      EmptyProgramRun();
    } else {
      SayLinesWritten(ts);
      SplitJoined(ls);
      SimulatedLines(UnparseProgram(Program(Says(ts))), ls, ts);
    }
  }

  /** The empty program unparses to one empty line, which prints nothing. */
  lemma EmptyProgramRun()
    ensures SimulateRun(UnparseProgram(Program([]))) == Ran([])
  {
    assert UnparseProgram(Program([])) == "\n";
    SplitLinesCons([], []);
    assert [] + "\n" + [] == "\n";
    assert !IsSayLine([]);
    assert SayLines([[]]) == [];
  }

  // ---------------------------------------------------------------------------
  // Registry and dispatch

  /** `TOOLS`: each tool's name and description, in registration order. */
  const Registry: seq<(string, string)> := [
    ("read_file", "Read a workspace file"),
    ("write_file", "Write a workspace file"),
    ("list_dir", "List directory entries"),
    ("compute_stats", "Compute lines/words/chars"),
    ("safe_eval", "Evaluate arithmetic expressions safely"),
    ("http_get", "Safe (simulated) HTTP GET"),
    ("format_code", "Format code (python)"),
    ("simulate_run", "Simulate running MS code"),
    ("get_plan", "Return a resource plan for code")
  ]

  predicate Registered(name: string) {
    exists k :: 0 <= k < |Registry| && Registry[k].0 == name
  }

  /** `list_tools()`: every registered name with its description, in order. */
  function ListTools(): (r: Json)
    ensures r.JObject? && |r.fields| == |Registry|
    ensures forall k :: 0 <= k < |Registry| ==> r.fields[k] == (Registry[k].0, JStr(Registry[k].1))
  {
    JObject(seq(|Registry|, k requires 0 <= k < |Registry| => (Registry[k].0, JStr(Registry[k].1))))
  }

  /** Each registered tool is listed once, with its own description, and nothing else is listed. */
  lemma Listed(name: string)
    ensures Get(ListTools(), name).Some? <==> Registered(name)
    ensures forall k :: 0 <= k < |Registry| && Registry[k].0 == name ==>
      Get(ListTools(), name) == Some(JStr(Registry[k].1))
  {
    var fs := ListTools().fields;
    if Registered(name) {
      var k :| 0 <= k < |Registry| && Registry[k].0 == name;
      FirstField(fs, name, k);
    }
  }

  /** Registered names are distinct, so a lookup finds the entry itself. */
  lemma FirstField(fs: seq<(string, Json)>, name: string, k: nat)
    requires fs == ListTools().fields && k < |Registry| && Registry[k].0 == name
    ensures forall j :: 0 <= j < |Registry| && Registry[j].0 == name ==> j == k
    ensures Lookup(fs, name) == Some(JStr(Registry[k].1))
  {
    assert forall i, j :: 0 <= i < j < |Registry| ==> Registry[i].0 != Registry[j].0;
    assert fs[k].0 == name;
    var r := Lookup(fs, name);
    var i :| 0 <= i < |fs| && fs[i] == (name, r.value);
    assert i == k;
  }

  /** What calling a tool comes to: an answer, an exception that escapes the
      dispatcher, or a tool whose work lies outside this model (files, the
      network, Python's evaluator and formatter). */
  datatype Reply = Returned(value: Json) | Raises(failure: Failure) | Outside(tool: string)

  const UnknownTool := ErrorAnswer("unknown tool")

  /** An exception raised inside a tool comes back as an error answer. */
  function Caught(r: Result<Json, Failure>): Json {
    match r
    case Ok(j) => j
    case Err(f) => ErrorAnswer(Message(f))
  }

  /** `call_tool(name, params)`: a name that is not registered gets the
      unknown-tool answer (a list or dictionary cannot even be looked up);
      a registered tool receives `params or {}`. */
  function CallTool(name: Json, params: Json): (r: Reply)
    ensures name.JStr? && !Registered(name.s) ==> r == Returned(UnknownTool)
    ensures !name.JStr? && !name.JList? && !name.JObject? ==> r == Returned(UnknownTool)
    ensures name.JList? || name.JObject? ==> r == Raises(Unhashable(TypeName(name)))
    ensures name.JStr? && Registered(name.s) ==> r != Returned(UnknownTool)
  {
    match name
    case JList(_) => Raises(Unhashable("list"))
    case JObject(_) => Raises(Unhashable("dict"))
    case JStr(s) =>
      if !Registered(s) then Returned(UnknownTool)
      else
        var ps := if Truthy(params) then params else JObject([]);
        if s == "compute_stats" then Returned(Caught(ComputeStats(ps)))
        else if s == "simulate_run" then Returned(Caught(SimulateRunTool(ps)))
        else if s == "get_plan" then Returned(Caught(GetPlanForCode(ps)))
        else Outside(s)
    case _ => Returned(UnknownTool)
  }

  /** A name is answered as unknown exactly when `list_tools` does not list it. */
  lemma UnknownIffUnlisted(name: string, params: Json)
    ensures CallTool(JStr(name), params) == Returned(UnknownTool) <==> Get(ListTools(), name).None?
  {
    Listed(name);
  }

  /** `get_plan` on string code answers with the same plan the backend computes. */
  lemma GetPlanTool(code: string)
    ensures CallTool(JStr("get_plan"), JObject([("code", JStr(code))]))
      == Returned(JObject([("ok", JBool(true)), ("plan", PlanJson(ComputePlan(code)))]))
  {
    assert Registry[8].0 == "get_plan";
  }
}
