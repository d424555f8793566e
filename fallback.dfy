/** The indentation-aware fallback parser, `_parse_fallback` and `parse`.
    The source text is split into lines; blank lines are dropped; a line that
    ends in `:` absorbs the indented, non-blank lines right below it into one
    logical line; every logical line is then parsed by `_parse_line`. The
    outcome of a parse is a `Result`: the expression parser's two failures
    (an unterminated string, a list that never ends) abort the whole parse,
    as the exception or the endless loop does in the source. */
module Fallback {
  import opened Wrappers
  import opened Text
  import opened Ast
  import opened ExprParser
  import opened LineParser

  /** The characters `str.lstrip(' \t')` removes. */
  predicate IsBlank(c: char) { c == ' ' || c == '\t' }

  /** `len(s) - len(s.lstrip(' \t'))`: the width of the indentation of `s`. */
  function IndentLength(s: string): (n: nat)
    ensures n <= |s|
    ensures forall k :: 0 <= k < n ==> IsBlank(s[k])
    ensures n < |s| ==> !IsBlank(s[n])
  {
    if s != [] && IsBlank(s[0]) then 1 + IndentLength(s[1..]) else 0
  }

  /** A header line: after trailing white space is removed, it ends in `:`. */
  predicate IsHeader(ln: string) { EndsWith(RStrip(ln), ":") }

  /** A line that a header absorbs: indented and not blank. */
  predicate IsBodyLine(ln: string) { IndentLength(ln) > 0 && Strip(ln) != [] }

  /** The index of the first line at or after `j` that is not a body line. */
  function BodyEnd(lines: seq<string>, j: nat): (r: nat)
    requires j <= |lines|
    ensures j <= r <= |lines|
    decreases |lines| - j
  {
    if j < |lines| && IsBodyLine(lines[j]) then BodyEnd(lines, j + 1) else j
  }

  /** The body lines `lines[j..e]` with their leading white space removed. */
  function Blocks(lines: seq<string>, j: nat, e: nat): seq<string>
    requires j <= e <= |lines|
    decreases e
  {
    if e == j then [] else Blocks(lines, j, e - 1) + [LStrip(lines[e - 1])]
  }

  /** `ln.strip() + ' ' + ' '.join(blocks)`. */
  function Combine(header: string, blocks: seq<string>): string {
    Strip(header) + " " + Join(blocks, " ")
  }

  /** The logical lines made from `lines[i..]`. */
  function Logical(lines: seq<string>, i: nat): seq<string>
    requires i <= |lines|
    decreases |lines| - i
  {
    if i == |lines| then []
    else if Strip(lines[i]) == [] then Logical(lines, i + 1)
    else if IsHeader(lines[i]) && BodyEnd(lines, i + 1) > i + 1 then
      var e := BodyEnd(lines, i + 1);
      [Combine(lines[i], Blocks(lines, i + 1, e))] + Logical(lines, e)
    else [Strip(lines[i])] + Logical(lines, i + 1)
  }

  /** The logical lines of a whole source text. */
  function LogicalLines(text: string): seq<string> {
    Logical(SplitLines(text), 0)
  }

  /** Parsing logical lines in order: a line that parses to nothing is
      skipped, the first failure aborts. */
  function ParseAll(ls: seq<string>): Result<seq<Stmt>, ParseError> {
    Gather(Outcomes(ls))
  }

  /** The outcome of `_parse_line` on each line. */
  function Outcomes(ls: seq<string>): (r: seq<LineResult>)
    ensures |r| == |ls|
    ensures forall k :: 0 <= k < |ls| ==> r[k] == ParseLine(ls[k])
  {
    seq(|ls|, k requires 0 <= k < |ls| => ParseLine(ls[k]))
  }

  /** The statements of a run of line outcomes, or its first failure. */
  function Gather(outs: seq<LineResult>): Result<seq<Stmt>, ParseError> {
    if outs == [] then Ok([]) else Cons(outs[0], Gather(outs[1..]))
  }

  /** The outcome of one line in front of the outcome of the lines after it. */
  function Cons(node: LineResult, rest: Result<seq<Stmt>, ParseError>): Result<seq<Stmt>, ParseError> {
    match node
    case Err(err) => Err(err)
    case Ok(n) =>
      match rest
      case Err(err) => Err(err)
      case Ok(ss) => Ok(Body(n) + ss)
  }

  /** `_parse_fallback(text)`, and `parse(source)` without the optional grammar library. */
  function FallbackProgram(text: string): Result<Program, ParseError> {
    match ParseAll(LogicalLines(text))
    case Err(err) => Err(err)
    case Ok(ss) => Ok(Program(ss))
  }

  // ---------------------------------------------------------------------------
  // The loops of `_parse_fallback`

  /** The first loop of `_parse_fallback`: walks the raw lines with `i` and,
      after a header, with `j`, collecting the logical lines. */
  method JoinLines(raw: seq<string>) returns (processed: seq<string>)
    ensures processed == Logical(raw, 0)
  {
    processed := [];
    var i := 0;
    while i < |raw|
      invariant i <= |raw|
      invariant processed + Logical(raw, i) == Logical(raw, 0)
      decreases |raw| - i
    {
      var ln := raw[i];
      if Strip(ln) == [] {
        LogicalBlank(raw, i);
        i := i + 1;
        continue;
      }
      if IsHeader(ln) {
        var j, blocks := BodyLines(raw, i + 1);
        if blocks != [] {
          LogicalJoined(raw, i);
          Append(processed, Combine(ln, blocks), Logical(raw, j), Logical(raw, 0));
          processed := processed + [Combine(ln, blocks)];
          i := j;
          continue;
        }
      }
      LogicalSingle(raw, i);
      Append(processed, Strip(ln), Logical(raw, i + 1), Logical(raw, 0));
      processed := processed + [Strip(ln)];
      i := i + 1;
    }
  }

  /** The inner loop of `_parse_fallback`: the body lines below a header
      that starts at `start - 1`, and the index of the line after them. */
  method BodyLines(raw: seq<string>, start: nat) returns (j: nat, blocks: seq<string>)
    requires start <= |raw|
    ensures j == BodyEnd(raw, start)
    ensures blocks == Blocks(raw, start, j)
  {
    j := start;
    blocks := [];
    ghost var e := BodyEnd(raw, start);
    while j < |raw|
      invariant start <= j <= |raw|
      invariant BodyEnd(raw, j) == e
      invariant blocks == Blocks(raw, start, j)
      decreases |raw| - j
    {
      var nxt := raw[j];
      if IsBodyLine(nxt) {
        BodyStep(raw, j);
        blocks := blocks + [LStrip(nxt)];
        j := j + 1;
        continue;
      }
      break;
    }
  }

  lemma BodyStep(lines: seq<string>, j: nat)
    requires j < |lines|
    ensures BodyEnd(lines, j) == (if IsBodyLine(lines[j]) then BodyEnd(lines, j + 1) else j)
  {
  }

  lemma Append(done: seq<string>, x: string, rest: seq<string>, whole: seq<string>)
    requires done + ([x] + rest) == whole
    ensures (done + [x]) + rest == whole
  {
    assert (done + [x]) + rest == done + ([x] + rest);
  }

  lemma LogicalBlank(raw: seq<string>, i: nat)
    requires i < |raw| && Strip(raw[i]) == []
    ensures Logical(raw, i) == Logical(raw, i + 1)
  {
  }

  lemma LogicalJoined(raw: seq<string>, i: nat)
    requires i < |raw| && Strip(raw[i]) != [] && IsHeader(raw[i])
    requires BodyEnd(raw, i + 1) > i + 1
    ensures Logical(raw, i) == [Combine(raw[i], Blocks(raw, i + 1, BodyEnd(raw, i + 1)))] + Logical(raw, BodyEnd(raw, i + 1))
  {
  }

  lemma LogicalSingle(raw: seq<string>, i: nat)
    requires i < |raw| && Strip(raw[i]) != []
    requires !IsHeader(raw[i]) || BodyEnd(raw, i + 1) == i + 1
    ensures Logical(raw, i) == [Strip(raw[i])] + Logical(raw, i + 1)
  {
  }

  /** The second loop of `_parse_fallback`: parses each logical line, drops
      the ones that parse to nothing, stops at the first failure. */
  method ParseLines(processed: seq<string>) returns (r: Result<seq<Stmt>, ParseError>)
    ensures r == ParseAll(processed)
  {
    var stmts: seq<Stmt> := [];
    var i := 0;
    ghost var outs := Outcomes(processed);
    assert outs[0..] == outs;
    AfterNothing(ParseAll(processed));
    while i < |processed|
      invariant i <= |processed|
      invariant ParseAll(processed) == After(stmts, Gather(outs[i..]))
    {
      var node := ParseLine(processed[i]);
      GatherAt(outs, i);
      Advance(stmts, node, Gather(outs[i + 1..]), ParseAll(processed));
      if node.Err? {
        return Err(node.error);
      } else if node.value.Some? {
        stmts := stmts + [node.value.value];
      }
      i := i + 1;
    }
    assert outs[i..] == [];
    assert stmts + [] == stmts;
    r := Ok(stmts);
  }

  /** The outcome `rest` of parsing the remaining lines, behind the statements `done` already parsed. */
  function After(done: seq<Stmt>, rest: Result<seq<Stmt>, ParseError>): Result<seq<Stmt>, ParseError> {
    match rest
    case Err(err) => Err(err)
    case Ok(ss) => Ok(done + ss)
  }

  lemma GatherAt(outs: seq<LineResult>, i: nat)
    requires i < |outs|
    ensures Gather(outs[i..]) == Cons(outs[i], Gather(outs[i + 1..]))
  {
    assert outs[i..][1..] == outs[i + 1..];
  }

  lemma AfterNothing(rest: Result<seq<Stmt>, ParseError>)
    ensures After([], rest) == rest
  {
    if rest.Ok? {
      assert [] + rest.value == rest.value;
    }
  }

  /** One step of the second loop, stated for any line outcome. */
  lemma Advance(done: seq<Stmt>, node: LineResult, rest: Result<seq<Stmt>, ParseError>, whole: Result<seq<Stmt>, ParseError>)
    requires whole == After(done, Cons(node, rest))
    ensures node.Err? ==> whole == Err(node.error)
    ensures node == Ok(None) ==> whole == After(done, rest)
    ensures node.Ok? && node.value.Some? ==> whole == After(done + [node.value.value], rest)
  {
    if node.Ok? && rest.Ok? {
      assert done + (Body(node.value) + rest.value) == done + Body(node.value) + rest.value;
      if node.value.None? {
        assert done + Body(node.value) == done;
      }
    }
  }

  /** `_parse_fallback(text)`. */
  method ParseFallback(text: string) returns (r: Result<Program, ParseError>)
    ensures r == FallbackProgram(text)
  {
    var processed := JoinLines(SplitLines(text));
    var stmts := ParseLines(processed);
    match stmts {
      case Err(err) => r := Err(err);
      case Ok(ss) => r := Ok(Program(ss));
    }
  }

  /** `parse(source)`: without the optional grammar library this is the fallback parser. */
  method Parse(source: string) returns (r: Result<Program, ParseError>)
    ensures r == FallbackProgram(source)
  {
    r := ParseFallback(source);
  }

  // ---------------------------------------------------------------------------
  // Properties of the logical lines

  /** The non-blank lines of `lines`, stripped, in order. */
  function NonBlankStripped(lines: seq<string>): (r: seq<string>)
    ensures |r| <= |lines|
  {
    if lines == [] then []
    else if Strip(lines[0]) == [] then NonBlankStripped(lines[1..])
    else [Strip(lines[0])] + NonBlankStripped(lines[1..])
  }

  /** A line `_parse_line` does not drop: not blank, and not starting with white space. */
  predicate Visible(l: string) { l != [] && !IsSpace(l[0]) && Strip(l) != [] }

  predicate AllVisible(ls: seq<string>) { forall k :: 0 <= k < |ls| ==> Visible(ls[k]) }

  /** Every logical line starts with a character that is not white space, so
      `_parse_line` never drops one; there are never more logical lines than raw lines. */
  lemma {:induction false} LogicalNonBlank(lines: seq<string>, i: nat)
    requires i <= |lines|
    ensures |Logical(lines, i)| <= |lines| - i
    ensures AllVisible(Logical(lines, i))
    decreases |lines| - i
  {
    if i < |lines| {
      var ln := lines[i];
      if Strip(ln) == [] {
        LogicalBlank(lines, i);
        LogicalNonBlank(lines, i + 1);
      } else if IsHeader(ln) && BodyEnd(lines, i + 1) > i + 1 {
        var e := BodyEnd(lines, i + 1);
        LogicalNonBlank(lines, e);
        JoinedVisible(lines, i, e);
      } else {
        LogicalNonBlank(lines, i + 1);
        SingleVisible(lines, i);
      }
    }
  }

  lemma JoinedVisible(lines: seq<string>, i: nat, e: nat)
    requires i < |lines| && Strip(lines[i]) != [] && IsHeader(lines[i])
    requires e == BodyEnd(lines, i + 1) > i + 1
    requires |Logical(lines, e)| <= |lines| - e && AllVisible(Logical(lines, e))
    ensures |Logical(lines, i)| <= |lines| - i && AllVisible(Logical(lines, i))
  {
    LogicalJoined(lines, i);
    CombineVisible(lines[i], Blocks(lines, i + 1, e));
    ConsVisible(Combine(lines[i], Blocks(lines, i + 1, e)), Logical(lines, e));
  }

  lemma SingleVisible(lines: seq<string>, i: nat)
    requires i < |lines| && Strip(lines[i]) != []
    requires !IsHeader(lines[i]) || BodyEnd(lines, i + 1) == i + 1
    requires |Logical(lines, i + 1)| <= |lines| - i - 1 && AllVisible(Logical(lines, i + 1))
    ensures |Logical(lines, i)| <= |lines| - i && AllVisible(Logical(lines, i))
  {
    LogicalSingle(lines, i);
    ConsVisible(Strip(lines[i]), Logical(lines, i + 1));
  }

  lemma CombineVisible(header: string, blocks: seq<string>)
    requires Strip(header) != []
    ensures Visible(Combine(header, blocks))
  {
    var c := Combine(header, blocks);
    assert c[0] == Strip(header)[0];
    StripBlank(c);
  }

  lemma ConsVisible(x: string, rest: seq<string>)
    requires Visible(x) && AllVisible(rest)
    ensures AllVisible([x] + rest)
  {
    forall k | 0 <= k < |[x] + rest|
      ensures Visible(([x] + rest)[k])
    {
      if k > 0 {
        assert ([x] + rest)[k] == rest[k - 1];
      }
    }
  }

  /** Without indentation nothing is joined: the logical lines are the
      non-blank lines, stripped, in source order. */
  lemma {:induction false} FlatLogical(lines: seq<string>, i: nat)
    requires i <= |lines|
    requires forall k :: i <= k < |lines| ==> IndentLength(lines[k]) == 0
    ensures Logical(lines, i) == NonBlankStripped(lines[i..])
    decreases |lines| - i
  {
    if i < |lines| {
      FlatLogical(lines, i + 1);
    }
  }

  /** A line that is not indented ends a block at once. */
  lemma NoBody(lines: seq<string>, j: nat)
    requires j <= |lines|
    requires j < |lines| ==> IndentLength(lines[j]) == 0
    ensures BodyEnd(lines, j) == j
  {
    if j < |lines| {
      BodyStep(lines, j);
    }
  }

  lemma LStripIndented(t: string)
    requires t != [] && !IsSpace(t[0])
    ensures LStrip("  " + t) == t
  {
    var s := "  " + t;
    assert s[1..] == " " + t;
    assert s[1..][1..] == t;
    assert LStrip(s[1..]) == t;
  }

  lemma IndentOfIndented(t: string)
    requires t != [] && !IsSpace(t[0])
    ensures IndentLength("  " + t) == 2
  {
    var s := "  " + t;
    assert s[1..] == " " + t;
    assert s[1..][1..] == t;
  }

  lemma StripIndented(t: string)
    requires t != [] && !IsSpace(t[0])
    ensures Strip("  " + t) == Strip(t)
  {
    LStripIndented(t);
  }

  lemma Pair(a: string, b: string, tail: seq<string>)
    requires tail == [b]
    ensures [a] + tail == [a, b]
  {
  }

  lemma EndsWithColon(s: string)
    requires s != [] && s[|s| - 1] == ':'
    ensures EndsWith(s, ":")
  {
    assert s[|s| - 1..] == [':'];
  }

  lemma HeaderLine(header: string)
    requires header != [] && IsStripped(header) && header[|header| - 1] == ':'
    ensures Strip(header) == header && IsHeader(header)
  {
    assert RStrip(header) == header;
    EndsWithColon(header);
  }

  /** A last line that is stripped and not a header is a logical line of its own. */
  lemma LastPlain(lines: seq<string>)
    requires |lines| >= 1
    requires Strip(lines[|lines| - 1]) == LStrip(lines[|lines| - 1]) != []
    requires !IsHeader(lines[|lines| - 1])
    ensures Logical(lines, |lines| - 1) == [Strip(lines[|lines| - 1])]
  {
    var n := |lines| - 1;
    NoBody(lines, n + 1);
    LogicalSingle(lines, n);
    assert Logical(lines, n + 1) == [];
    assert [Strip(lines[n])] + [] == [Strip(lines[n])];
  }

  lemma IndentedPlain(body: string)
    requires body != [] && IsStripped(body) && body[|body| - 1] != ':'
    ensures Strip("  " + body) == LStrip("  " + body) == body && !IsHeader("  " + body)
  {
    LStripIndented(body);
    StripIndented(body);
    var s := "  " + body;
    assert RStrip(s) == s;
    assert s[|s| - 1] == body[|body| - 1];
  }

  lemma OneBodyLine(lines: seq<string>, body: string)
    requires |lines| == 4 && lines[1] == "  " + body && lines[2] == ""
    requires body != [] && IsStripped(body)
    ensures BodyEnd(lines, 1) == 2 && Blocks(lines, 1, 2) == [body]
  {
    LStripIndented(body);
    IndentOfIndented(body);
    StripIndented(body);
    assert IsBodyLine(lines[1]) && !IsBodyLine(lines[2]);
  }

  /** A header, one indented body line, a blank line and a plain line give
      two logical lines: the header joined with its body, then the plain line. */
  lemma HeaderJoined(header: string, body: string, plain: string)
    requires header != [] && IsStripped(header) && header[|header| - 1] == ':'
    requires body != [] && IsStripped(body)
    requires plain != [] && IsStripped(plain) && plain[|plain| - 1] != ':'
    ensures Logical([header, "  " + body, "", plain], 0) == [header + " " + body, plain]
  {
    var lines := [header, "  " + body, "", plain];
    OneBodyLine(lines, body);
    HeaderLine(header);
    LastPlain(lines);
    var tail := Logical(lines, 3);
    LogicalBlank(lines, 2);
    LogicalJoined(lines, 0);
    var joined := Combine(header, [body]);
    assert joined == header + " " + body;
    assert Logical(lines, 0) == [joined] + tail;
    Pair(joined, plain, tail);
  }

  /** A blank line between a header and an indented line ends the block: the
      header and the indented line stay two logical lines. */
  lemma BlankEndsBlock(header: string, body: string)
    requires header != [] && IsStripped(header) && header[|header| - 1] == ':'
    requires body != [] && IsStripped(body) && body[|body| - 1] != ':'
    ensures Logical([header, "", "  " + body], 0) == [header, body]
  {
    var lines := [header, "", "  " + body];
    HeaderLine(header);
    IndentedPlain(body);
    NoBody(lines, 1);
    LastPlain(lines);
    LogicalBlank(lines, 1);
    LogicalSingle(lines, 0);
    Pair(header, body, Logical(lines, 2));
  }

  // ---------------------------------------------------------------------------
  // Properties of the parse

  /** Outcomes none of which is "nothing" give one statement each, in order, unless one fails. */
  lemma {:induction false} GatherEach(outs: seq<LineResult>)
    requires forall k :: 0 <= k < |outs| ==> outs[k] != Ok(None)
    ensures Gather(outs).Ok? ==> |Gather(outs).value| == |outs|
    ensures Gather(outs).Ok? ==> forall k :: 0 <= k < |outs| ==> outs[k] == Ok(Some(Gather(outs).value[k]))
  {
    if outs != [] {
      GatherEach(outs[1..]);
      var rest := Gather(outs[1..]);
      if outs[0].Ok? && rest.Ok? {
        var ss := [outs[0].value.value] + rest.value;
        assert Gather(outs) == Ok(ss);
        forall k | 0 <= k < |outs|
          ensures outs[k] == Ok(Some(ss[k]))
        {
          if k > 0 {
            assert outs[k] == outs[1..][k - 1];
          }
        }
      }
    }
  }

  /** A run of outcomes fails exactly when one of them is a failure. */
  lemma {:induction false} GatherFails(outs: seq<LineResult>)
    ensures Gather(outs).Err? <==> exists k :: 0 <= k < |outs| && outs[k].Err?
  {
    if outs != [] {
      GatherFails(outs[1..]);
      if exists k :: 0 <= k < |outs[1..]| && outs[1..][k].Err? {
        var k :| 0 <= k < |outs[1..]| && outs[1..][k].Err?;
        assert outs[k + 1] == outs[1..][k];
      }
      if exists k :: 0 <= k < |outs| && outs[k].Err? {
        var k :| 0 <= k < |outs| && outs[k].Err?;
        if k > 0 {
          assert outs[1..][k - 1] == outs[k];
        }
      }
    }
  }

  /** `parse(text)` yields one statement per logical line, in order: no
      logical line is dropped, and blank lines yield nothing. */
  lemma FallbackStatements(text: string)
    ensures FallbackProgram(text).Ok? ==>
      |FallbackProgram(text).value.statements| == |LogicalLines(text)|
    ensures FallbackProgram(text).Ok? ==> forall k :: 0 <= k < |LogicalLines(text)| ==>
      ParseLine(LogicalLines(text)[k]) == Ok(Some(FallbackProgram(text).value.statements[k]))
    ensures FallbackProgram(text).Err? <==> exists k :: 0 <= k < |LogicalLines(text)| && ParseLine(LogicalLines(text)[k]).Err?
  {
    var ls := LogicalLines(text);
    LogicalNonBlank(SplitLines(text), 0);
    GatherEach(Outcomes(ls));
    GatherFails(Outcomes(ls));
  }
}
