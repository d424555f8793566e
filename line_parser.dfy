/** The line-oriented fallback parser of `metascript/parser.py`: `_strip_quotes`,
    `_parse_pattern` and `_parse_line`.

    `_parse_line` recognises each statement form with a Python regular
    expression. Each expression is written out below as a function of
    positions: `\s` is `Text.IsSpace`, `\w` is `Text.IsWordChar`, and `.`
    matches every character because a line never holds a line break. Where an
    expression has several possible matches, the function computes the one
    Python's backtracking engine picks (greedy groups take the longest match
    and lazy groups the shortest).

    Every caller hands `_parse_line` one line of `str.splitlines()` or a piece
    of one, so the text never holds a line break; the functions below are
    written for such text (on a `\n` Python's `.` would stop). */
module LineParser {
  import opened Wrappers
  import opened Text
  import opened Ast
  import opened ExprParser

  /** `_parse_line` gives a statement, `None` for a blank line, or an error
      that the expression parser raised. */
  type LineResult = Result<Option<Stmt>, ParseError>

  /** `s[i:i+len(w)] == w`, written character by character. */
  predicate TextAt(s: string, i: nat, w: string) {
    i + |w| <= |s| && forall k :: 0 <= k < |w| ==> s[i + k] == w[k]
  }

  // ---------------------------------------------------------------------------
  // _strip_quotes and _parse_pattern

  predicate IsQuote(c: char) { c == '"' || c == '\'' }

  /** `_strip_quotes`: drops the first and last characters when both are quote
      characters (not necessarily the same one). */
  function StripQuotes(s: string): (r: string)
    ensures r == s || (|s| >= 2 && IsQuote(s[0]) && IsQuote(s[|s| - 1]) && s == [s[0]] + r + [s[|s| - 1]])
    ensures |s| >= 2 && IsQuote(s[0]) && IsQuote(s[|s| - 1]) ==> |r| == |s| - 2
  {
    if |s| >= 2 && IsQuote(s[0]) && IsQuote(s[|s| - 1]) then s[1..|s| - 1] else s
  }

  /** `s.startswith(q) and s.endswith(q)` for a one-character `q`. */
  predicate QuotedBy(s: string, q: char) {
    |s| >= 1 && s[0] == q && s[|s| - 1] == q
  }

  /** `_parse_pattern`: a pattern of a `case` clause. */
  function ParsePattern(src: string): Pattern
    decreases |src|, 2
  {
    PatternOf(Strip(src))
  }

  /** The pattern a stripped text `t` stands for. */
  function PatternOf(t: string): Pattern
    decreases |t|, 1
  {
    if t == "_" then WildcardPattern
    else if t != [] && AllDigits(t) then LiteralPattern(LiteralInt(DigitsValue(t)))
    else if QuotedBy(t, '"') || QuotedBy(t, '\'') then LiteralPattern(LiteralString(StripQuotes(t)))
    else if |t| >= 1 && t[0] == '[' && t[|t| - 1] == ']' then
      var inner := Strip(if |t| >= 2 then t[1..|t| - 1] else []);
      if inner == [] then ListPattern([]) else ListPattern(PatternItems(inner))
    else NamePattern(t)
  }

  /** The elements of a list pattern: each comma-separated part of its inner
      text, stripped and parsed on its own. */
  function PatternItems(inner: string): seq<Pattern>
    decreases |inner| + 1, 0
  {
    var parts := Split(inner, ',');
    seq(|parts|, k requires 0 <= k < |parts| => ParsePattern(Strip(parts[k])))
  }

  // ---------------------------------------------------------------------------
  // Pieces of the regular expressions

  /** `\s*(.+)` at `p`: the rest of the line after the white space; when only
      white space is left, the engine gives back its last character. */
  function RestAfter(s: string, p: nat): (r: Option<string>)
    requires p <= |s|
    ensures r.Some? <==> p < |s|
    ensures r.Some? ==> r.value != [] && |r.value| <= |s| - p
  {
    var q := Ws(s, p);
    if q < |s| then Some(s[q..])
    else if p < |s| then Some(s[|s| - 1..])
    else None
  }

  /** `\s*:\s*(.+)` matches at `e`. */
  predicate ColonAfter(s: string, e: nat)
    requires e <= |s|
  {
    var r := Ws(s, e);
    r < |s| && s[r] == ':' && r + 1 < |s|
  }

  /** The text `(.+)` takes in `\s*:\s*(.+)` at `e`. */
  function ColonTail(s: string, e: nat): (r: string)
    requires e <= |s| && ColonAfter(s, e)
    ensures r != [] && |r| < |s| - e
  {
    RestAfter(s, Ws(s, e) + 1).value
  }

  /** The first position at or after `e` where `\s*:\s*(.+)` matches. */
  function FirstColon(s: string, e: nat): (r: Option<nat>)
    requires e <= |s|
    ensures r.Some? ==> e <= r.value <= |s| && ColonAfter(s, r.value)
    decreases |s| - e
  {
    if ColonAfter(s, e) then Some(e)
    else if e < |s| then FirstColon(s, e + 1)
    else None
  }

  /** The text a group spans, from `start` to `end`. */
  datatype Span = Span(start: nat, end: nat)

  /** `\s+(.+?)\s*:\s*(.+)` at `p`: the lazy group ends at the first colon
      that has text after it. When the white space runs up to that colon, the
      engine gives back one space of it to the group. */
  function LazyHead(s: string, p: nat): (r: Option<Span>)
    requires p <= |s|
    ensures r.Some? ==> p < r.value.start < r.value.end <= |s| && ColonAfter(s, r.value.end)
  {
    if !(p < |s| && IsSpace(s[p])) then None
    else
      var q := Ws(s, p);
      var first := if q < |s| then FirstColon(s, q + 1) else None;
      if first.Some? then Some(Span(q, first.value))
      else if q >= p + 2 && ColonAfter(s, q) then Some(Span(q - 1, q))
      else None
  }

  /** `(?:\s+else\s*:\s*(.+))` at `f`, giving the text of its group. */
  function ElseGroup(s: string, f: nat): (r: Option<string>)
    requires f <= |s|
    ensures r.Some? ==> r.value != [] && |r.value| < |s| - f
  {
    if !(f < |s| && IsSpace(s[f])) then None
    else
      var g := Ws(s, f);
      if !TextAt(s, g, "else") then None
      else
        var h := Ws(s, g + 4);
        if !CharAt(s, h, ':') then None else RestAfter(s, h + 1)
  }

  /** Where the lazy `(.+?)` of the `if` form stops: the first position from
      `f` at which the `else` group matches, or the end of the line. */
  function ThenEnd(s: string, f: nat): (r: nat)
    requires f <= |s|
    ensures f <= r <= |s|
    ensures r < |s| ==> ElseGroup(s, r).Some?
    decreases |s| - f
  {
    if f >= |s| then |s|
    else if ElseGroup(s, f).Some? then f
    else ThenEnd(s, f + 1)
  }

  /** The `then` and `else` texts of `\s*(.+?)(?:\s+else\s*:\s*(.+))?$` at `p`. */
  datatype Branches = Branches(thenSrc: string, elseSrc: Option<string>)

  function ThenElse(s: string, p: nat): (r: Branches)
    requires p < |s|
    ensures r.thenSrc != [] && |r.thenSrc| <= |s| - p
    ensures r.elseSrc.Some? ==> r.elseSrc.value != [] && |r.elseSrc.value| < |s| - p
  {
    var t := Ws(s, p);
    if t < |s| then
      var f := ThenEnd(s, t + 1);
      Branches(s[t..f], if f < |s| then ElseGroup(s, f) else None)
    else Branches(s[|s| - 1..], None)
  }

  /** The groups of `\s+(\w+)\s*\(([^)]*)\)\s*:\s*(.+)`, the signature of a
      one-line `macro`, `def` or `async def`. */
  datatype Signature = Signature(name: string, params: string, body: string)

  function SignatureAt(s: string, p: nat): (r: Option<Signature>)
    requires p <= |s|
    ensures r.Some? ==> r.value.name != [] && r.value.body != [] && |r.value.body| < |s| - p
  {
    if !(p < |s| && IsSpace(s[p])) then None
    else
      var a := Ws(s, p);
      var n := WordRun(s, a);
      var b := Ws(s, a + n);
      if n == 0 || !CharAt(s, b, '(') then None
      else
        var c := FindFrom(s, ')', b + 1);
        if c < 0 then None
        else
          var d := Ws(s, c + 1);
          if !CharAt(s, d, ':') then None
          else
            match RestAfter(s, d + 1)
            case None => None
            case Some(body) => Some(Signature(s[a..a + n], s[b + 1..c], body))
  }

  /** `for\s+(\w+)\s+in`: the loop variable and the position after `in`. */
  function ForHead(s: string): (r: Option<(string, nat)>)
    requires |s| >= 4
    ensures r.Some? ==> r.value.0 != [] && 4 < r.value.1 <= |s|
  {
    if !IsSpace(s[3]) then None
    else
      var a := Ws(s, 3);
      var n := WordRun(s, a);
      var b := a + n;
      if n == 0 || !(b < |s| && IsSpace(s[b])) then None
      else
        var c := Ws(s, b);
        if TextAt(s, c, "in") then Some((s[a..b], c + 2)) else None
  }

  /** The groups of `for\s+(\w+)\s+in\s+range\(([^)]*)\)\s*:\s*(.+)`. */
  datatype RangeLoop = RangeLoop(loopVar: string, inner: string, body: string)

  function ForRange(s: string): (r: Option<RangeLoop>)
    requires |s| >= 4
    ensures r.Some? ==> r.value.body != [] && |r.value.body| < |s|
  {
    match ForHead(s)
    case None => None
    case Some((v, d)) =>
      if !(d < |s| && IsSpace(s[d])) then None
      else
        var e := Ws(s, d);
        if !TextAt(s, e, "range(") then None
        else
          var f := FindFrom(s, ')', e + 6);
          if f < 0 then None
          else
            var g := Ws(s, f + 1);
            if !CharAt(s, g, ':') then None
            else
              match RestAfter(s, g + 1)
              case None => None
              case Some(body) => Some(RangeLoop(v, s[e + 6..f], body))
  }

  /** The groups of `for\s+(\w+)\s+in\s+(.+?)\s*:\s*(.+)`. */
  datatype IterLoop = IterLoop(loopVar: string, iterable: string, body: string)

  function ForIter(s: string): (r: Option<IterLoop>)
    requires |s| >= 4
    ensures r.Some? ==> r.value.body != [] && |r.value.body| < |s|
  {
    match ForHead(s)
    case None => None
    case Some((v, d)) =>
      match LazyHead(s, d)
      case None => None
      case Some(sp) => Some(IterLoop(v, s[sp.start..sp.end], ColonTail(s, sp.end)))
  }

  /** The last `..` at or before `e` that has a character before it and one after it. */
  function DotDotFrom(x: string, e: nat): (r: Option<nat>)
    requires e + 3 <= |x|
    ensures r.Some? ==> 1 <= r.value <= e && TextAt(x, r.value, "..")
    decreases e
  {
    if e == 0 then None
    else if TextAt(x, e, "..") then Some(e)
    else DotDotFrom(x, e - 1)
  }

  /** `(.+)\.\.\s*(.+)`: the greedy first group ends at the last such `..`;
      both groups come back stripped. */
  function DotDot(x: string): (r: Option<(string, string)>)
  {
    if |x| < 4 then None
    else
      match DotDotFrom(x, |x| - 3)
      case None => None
      case Some(e) => Some(DotDotSides(x, e))
  }

  /** The two groups of `(.+)\.\.\s*(.+)` when the `..` is at `e`, stripped. */
  function DotDotSides(x: string, e: nat): (string, string)
    requires e + 2 < |x|
  {
    (Strip(x[..e]), Strip(RestAfter(x, e + 2).value))
  }

  /** The last index of `c` in `s` before `n`. */
  function LastIndex(s: string, c: char, n: nat): (r: Option<nat>)
    requires n <= |s|
    ensures r.Some? ==> r.value < n && s[r.value] == c
    ensures r.Some? ==> forall k :: r.value < k < n ==> s[k] != c
    ensures r.None? ==> forall k :: 0 <= k < n ==> s[k] != c
  {
    if n == 0 then None
    else if s[n - 1] == c then Some(n - 1)
    else LastIndex(s, c, n - 1)
  }

  /** The groups of `agent\s+(\w+)\s*\[(.+)\]`: the greedy payload runs to
      the last `]` of the line. */
  function AgentHead(s: string): (r: Option<(string, string)>)
    requires |s| >= 6
  {
    if !IsSpace(s[5]) then None
    else
      var a := Ws(s, 5);
      var n := WordRun(s, a);
      var b := Ws(s, a + n);
      if n == 0 || !CharAt(s, b, '[') then None
      else
        match LastIndex(s, ']', |s|)
        case None => None
        case Some(e) => if e < b + 2 then None else Some((s[a..a + n], s[b + 1..e]))
  }

  /** `\bcase\b` matches at `i` (word boundaries over ASCII word characters). */
  predicate CaseAt(s: string, i: nat) {
    && TextAt(s, i, "case")
    && (i == 0 || !IsWordChar(s[i - 1]))
    && (i + 4 == |s| || !IsWordChar(s[i + 4]))
  }

  /** `re.split(r'\bcase\b', s[start:])`, scanning from `i`. */
  function SplitCase(s: string, start: nat, i: nat): (parts: seq<string>)
    requires start <= i <= |s|
    ensures |parts| >= 1
    ensures forall k :: 0 <= k < |parts| ==> |parts[k]| <= |s| - start
    decreases |s| - i
  {
    if i + 4 > |s| then [s[start..]]
    else if CaseAt(s, i) then [s[start..i]] + SplitCase(s, i + 4, i + 4)
    else SplitCase(s, start, i + 1)
  }

  /** `[p.strip() for p in parts if p.strip()]`. */
  function NonBlank(parts: seq<string>): (r: seq<string>)
    ensures |r| <= |parts|
    ensures forall k :: 0 <= k < |r| ==> r[k] != [] && IsStripped(r[k])
  {
    if parts == [] then []
    else if Strip(parts[0]) == [] then NonBlank(parts[1..])
    else [Strip(parts[0])] + NonBlank(parts[1..])
  }

  /** `[p.strip() for p in parts]`. */
  function StripAll(parts: seq<string>): (r: seq<string>)
    ensures |r| == |parts|
    ensures forall k :: 0 <= k < |r| ==> r[k] == Strip(parts[k])
  {
    seq(|parts|, k requires 0 <= k < |parts| => Strip(parts[k]))
  }

  /** The parameter names of a signature: the non-blank comma-separated parts. */
  function Params(g: string): seq<string> {
    NonBlank(Split(g, ','))
  }

  // ---------------------------------------------------------------------------
  // _parse_line

  /** `[node] if node else []`: a statement list of at most one statement. */
  function Body(node: Option<Stmt>): (r: seq<Stmt>)
    ensures |r| <= 1 && (r == [] <==> node.None?)
  {
    if node.Some? then [node.value] else []
  }

  /** Parses each text as an expression, in order; the first error wins. */
  function ParseExprs(srcs: seq<string>): (r: Result<seq<Expr>, ParseError>)
    ensures r.Ok? ==> |r.value| == |srcs|
  {
    if srcs == [] then Ok([])
    else
      match ParseExpression(srcs[0])
      case Err(err) => Err(err)
      case Ok(x) =>
        match ParseExprs(srcs[1..])
        case Err(err) => Err(err)
        case Ok(xs) => Ok([x] + xs)
  }

  /** The arguments of a call written `name(args)`: `rest[:-1]` drops the
      last character whatever it is, and an empty argument text gives no
      arguments. */
  function CallArgs(rest: string): Result<seq<Expr>, ParseError> {
    var text := Strip(if rest == [] then [] else rest[..|rest| - 1]);
    if text == [] then Ok([]) else ParseExprs(StripAll(Split(text, ',')))
  }

  /** `_parse_line(line)`. */
  function ParseLine(line: string): (r: LineResult)
    ensures r == Ok(None) <==> Strip(line) == []
    decreases |line|, 3
  {
    var l := Strip(line);
    if l == [] then Ok(None)
    else
      match ParseStatement(l)
      case Err(err) => Err(err)
      case Ok(st) => Ok(Some(st))
  }

  /** The statement forms of `_parse_line`, tried in the order of the source. */
  function ParseStatement(l: string): (r: Result<Stmt, ParseError>)
    requires l != [] && IsStripped(l)
    decreases |l|, 2
  {
    if TextAt(l, 0, "say ") then
      match ParseExpression(l[4..])
      case Err(err) => Err(err)
      case Ok(v) => Ok(Say(v))
    else if TextAt(l, 0, "print ") then
      match ParseExpression(l[6..])
      case Err(err) => Err(err)
      case Ok(v) => Ok(Print(v))
    else if TextAt(l, 0, "let ") && '=' in l[4..] then
      var (name, value) := SplitFirst(l[4..], '=');
      match ParseExpression(value)
      case Err(err) => Err(err)
      case Ok(v) => Ok(Assign(Strip(name), v))
    else if TextAt(l, 0, "macro ") && SignatureAt(l, 5).Some? then
      ParseDefinition(l, SignatureAt(l, 5).value, DefMacro)
    else if TextAt(l, 0, "@") && '(' in l then
      assert '(' in l[1..] by {
        assert l[0 + 0] == "@"[0];
        var k :| 0 <= k < |l| && l[k] == '(';
        assert l[1..][k - 1] == '(';
      }
      MacroCallAt(l)
    else if TextAt(l, 0, "async def ") && SignatureAt(l, 9).Some? then
      ParseDefinition(l, SignatureAt(l, 9).value, DefAsync)
    else if TextAt(l, 0, "def ") && SignatureAt(l, 3).Some? then
      ParseDefinition(l, SignatureAt(l, 3).value, DefPlain)
    else if TextAt(l, 0, "return ") then
      match ParseExpression(l[7..])
      case Err(err) => Err(err)
      case Ok(v) => Ok(Return(v))
    else if TextAt(l, 0, "match ") && LazyHead(l, 5).Some? then
      ParseMatch(l, LazyHead(l, 5).value)
    else if TextAt(l, 0, "if ") && LazyHead(l, 2).Some? then
      ParseIf(l, LazyHead(l, 2).value)
    else if TextAt(l, 0, "while ") && LazyHead(l, 5).Some? then
      ParseWhile(l, LazyHead(l, 5).value)
    else if TextAt(l, 0, "for ") && ForRange(l).Some? then
      ParseRangeLoop(l, ForRange(l).value)
    else if TextAt(l, 0, "for ") && ForIter(l).Some? then
      ParseIterLoop(l, ForIter(l).value)
    else if TextAt(l, 0, "agent ") && AgentHead(l).Some? then
      var (agent, raw) := AgentHead(l).value;
      var payload := Strip(raw);
      var quoted := (QuotedBy(payload, '"') || QuotedBy(payload, '\'')) && ':' !in payload;
      Ok(AgentCall(agent, if quoted then StripQuotes(payload) else payload))
    else if '=' in l then
      var (name, value) := SplitFirst(l, '=');
      match ParseExpression(value)
      case Err(err) => Err(err)
      case Ok(v) => Ok(Assign(Strip(name), v))
    else if |l| >= 1 && l[|l| - 1] == ')' && '(' in l then
      var (name, rest) := SplitFirst(l, '(');
      match CallArgs(rest)
      case Err(err) => Err(err)
      case Ok(args) => Ok(ExprStmt(FunctionCall(Strip(name), args)))
    else
      Ok(ExprStmt(NameExpr(l)))
  }

  /** Which of the three one-line definitions a signature belongs to. */
  datatype DefKind = DefMacro | DefAsync | DefPlain

  /** `macro`, `async def` and `def` with a one-line body. */
  function ParseDefinition(l: string, sig: Signature, kind: DefKind): (r: Result<Stmt, ParseError>)
    requires |sig.body| < |l|
    decreases |l|, 1
  {
    match ParseLine(sig.body)
    case Err(err) => Err(err)
    case Ok(node) =>
      match kind
      case DefMacro => Ok(MacroDef(sig.name, Params(sig.params), Body(node)))
      case DefAsync => Ok(FunctionDef(sig.name, Params(sig.params), Body(node), true))
      case DefPlain => Ok(FunctionDef(sig.name, Params(sig.params), Body(node), false))
  }

  /** `@name(args)`: a macro call. */
  function MacroCallAt(l: string): (r: Result<Stmt, ParseError>)
    requires |l| >= 1 && '(' in l[1..]
  {
    var (name, rest) := SplitFirst(l[1..], '(');
    match CallArgs(rest)
    case Err(err) => Err(err)
    case Ok(args) => Ok(MacroCall(Strip(name), args))
  }

  /** The clauses of a one-line `match`, from the pieces between the `case`
      keywords: each stripped, non-blank piece of the form `pattern: statement`
      gives a case; the other pieces are skipped. */
  function ParseCases(parts: seq<string>, bound: nat): (r: Result<seq<MatchCase>, ParseError>)
    requires forall k :: 0 <= k < |parts| ==> |parts[k]| < bound
    decreases bound, 0, |parts|
  {
    if parts == [] then Ok([])
    else
      var cp := Strip(parts[0]);
      match if cp == [] then None else FirstColon(cp, 1)
      case None => ParseCases(parts[1..], bound)
      case Some(e) =>
        match ParseLine(Strip(ColonTail(cp, e)))
        case Err(err) => Err(err)
        case Ok(node) =>
          match ParseCases(parts[1..], bound)
          case Err(err) => Err(err)
          case Ok(cases) => Ok([MatchCase(ParsePattern(Strip(cp[..e])), Body(node))] + cases)
  }

  function ParseMatch(l: string, head: Span): (r: Result<Stmt, ParseError>)
    requires head.start < head.end <= |l| && ColonAfter(l, head.end)
    decreases |l|, 1
  {
    match ParseExpression(l[head.start..head.end])
    case Err(err) => Err(err)
    case Ok(subject) =>
      match ParseCases(SplitCase(ColonTail(l, head.end), 0, 0), |l|)
      case Err(err) => Err(err)
      case Ok(cases) => Ok(Match(subject, cases))
  }

  function ParseIf(l: string, head: Span): (r: Result<Stmt, ParseError>)
    requires head.start < head.end <= |l| && ColonAfter(l, head.end)
    decreases |l|, 1
  {
    var br := ThenElse(l, Ws(l, head.end) + 1);
    IfNode(ParseExpression(l[head.start..head.end]), ParseLine(br.thenSrc),
      if br.elseSrc.Some? then ParseLine(br.elseSrc.value) else Ok(None))
  }

  /** The `If` built from its parsed condition, `then` statement and optional
      `else` statement; the first failure among them, in that order, is the result. */
  function IfNode(cond: Result<Expr, ParseError>, thenResult: LineResult, elseResult: LineResult): (r: Result<Stmt, ParseError>)
  {
    match cond
    case Err(err) => Err(err)
    case Ok(c) =>
      match thenResult
      case Err(err) => Err(err)
      case Ok(thenNode) =>
        match elseResult
        case Err(err) => Err(err)
        case Ok(elseNode) =>
          Ok(If(c, Body(thenNode), if elseNode.Some? then ElseBlock([elseNode.value]) else NoElse))
  }

  function ParseWhile(l: string, head: Span): (r: Result<Stmt, ParseError>)
    requires head.start < head.end <= |l| && ColonAfter(l, head.end)
    decreases |l|, 1
  {
    match ParseExpression(l[head.start..head.end])
    case Err(err) => Err(err)
    case Ok(cond) =>
      match ParseLine(ColonTail(l, head.end))
      case Err(err) => Err(err)
      case Ok(node) => Ok(While(cond, Body(node)))
  }

  /** `for v in range(inner): body`: several comma-separated arguments give a
      call of `range`; a single one is the loop bound itself. */
  function ParseRangeLoop(l: string, m: RangeLoop): (r: Result<Stmt, ParseError>)
    requires |m.body| < |l|
    decreases |l|, 1
  {
    RangeLoopWith(m.loopVar, Strip(m.inner), ParseLine(m.body))
  }

  /** The range loop over the stripped argument text `inner`, once its body
      has been parsed to `bodyResult`. */
  function RangeLoopWith(v: string, inner: string, bodyResult: LineResult): Result<Stmt, ParseError> {
    match bodyResult
    case Err(err) => Err(err)
    case Ok(node) =>
      if ',' in inner then
        match ParseExprs(NonBlank(Split(inner, ',')))
        case Err(err) => Err(err)
        case Ok(args) => Ok(ForLoop(v, FunctionCall("range", args), Body(node)))
      else
        match if inner != [] then ParseExpression(inner) else Ok(LiteralInt(0))
        case Err(err) => Err(err)
        case Ok(bound) => Ok(ForLoop(v, bound, Body(node)))
  }

  /** `for v in iterable: body`, where `a..b` stands for `range(a, b + 1)`. */
  function ParseIterLoop(l: string, m: IterLoop): (r: Result<Stmt, ParseError>)
    requires |m.body| < |l|
    decreases |l|, 1
  {
    IterLoopWith(m.loopVar, Strip(m.iterable), ParseLine(m.body))
  }

  /** The loop over the stripped `iterable`, whose body parses to `bodyResult`;
      the iterable is parsed before the body. */
  function IterLoopWith(v: string, iterable: string, bodyResult: LineResult): Result<Stmt, ParseError> {
    if DotDot(iterable).Some? then
      var (left, right) := DotDot(iterable).value;
      match ParseExpression(left)
      case Err(err) => Err(err)
      case Ok(start) =>
        match ParseExpression(right)
        case Err(err) => Err(err)
        case Ok(end) =>
          match bodyResult
          case Err(err) => Err(err)
          case Ok(node) =>
            Ok(ForLoop(v, FunctionCall("range", [start, BinaryOp("+", end, LiteralInt(1))]), Body(node)))
    else
      match ParseExpression(iterable)
      case Err(err) => Err(err)
      case Ok(it) =>
        match bodyResult
        case Err(err) => Err(err)
        case Ok(node) => Ok(ForLoop(v, it, Body(node)))
  }
}
