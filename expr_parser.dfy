/** The fallback expression parser `_ExprParser` (metascript/parser.py:153-287):
    a recursive-descent parser over a cursor into the stripped source text.

    The functions below give the meaning of each parsing routine as a function
    of the text and the cursor position on entry; class `Cursor` is the parser
    itself, whose methods move the cursor field in loops and are proved to
    agree with those functions.

    Two Python outcomes are errors here: a string literal without its closing
    quote raises "Unterminated string", and an argument or list loop whose
    iteration consumes nothing and stops on a character other than a separator
    or the closing bracket repeats forever (the Python program does not
    terminate); that is reported as `NoProgress`. */
module ExprParser {
  import opened Wrappers
  import opened Text
  import opened Ast

  datatype ParseError =
    | Unterminated   // ValueError("Unterminated string")
    | NoProgress     // the argument or list loop would repeat forever

  /** An expression and the cursor position after it. */
  datatype Parsed = Parsed(e: Expr, pos: nat)

  type Outcome = Result<Parsed, ParseError>

  /** A parse starting at `i` ends within the text and never moves the cursor back. */
  predicate Advances(s: string, i: nat, r: Outcome) {
    r.Ok? ==> i <= r.value.pos <= |s|
  }

  /** `self.peek()`: the character under the cursor, or `None` at the end. */
  function PeekAt(s: string, i: nat): Option<char> {
    if i < |s| then Some(s[i]) else None
  }

  /** `consume_ws`: the first position at or after `i` that is not white space. */
  function Ws(s: string, i: nat): (j: nat)
    requires i <= |s|
    ensures i <= j <= |s|
    decreases |s| - i
  {
    if i < |s| && IsSpace(s[i]) then Ws(s, i + 1) else i
  }

  /** `consume_ws` skips exactly the white space before the next other character. */
  lemma {:induction false} WsSkipsSpace(s: string, i: nat)
    requires i <= |s|
    ensures forall k :: i <= k < Ws(s, i) ==> IsSpace(s[k])
    ensures Ws(s, i) < |s| ==> !IsSpace(s[Ws(s, i)])
    decreases |s| - i
  {
    if i < |s| && IsSpace(s[i]) {
      WsSkipsSpace(s, i + 1);
    }
  }

  /** The length of the run of ASCII digits starting at `i` (`\d+`). */
  function DigitRun(s: string, i: nat): (n: nat)
    requires i <= |s|
    ensures i + n <= |s|
    ensures n > 0 <==> i < |s| && IsDigit(s[i])
    decreases |s| - i
  {
    if i < |s| && IsDigit(s[i]) then 1 + DigitRun(s, i + 1) else 0
  }

  /** `\d+` takes the whole run of digits and nothing else. */
  lemma {:induction false} DigitRunDigits(s: string, i: nat)
    requires i <= |s|
    ensures AllDigits(s[i..i + DigitRun(s, i)])
    ensures i + DigitRun(s, i) < |s| ==> !IsDigit(s[i + DigitRun(s, i)])
    decreases |s| - i
  {
    if i < |s| && IsDigit(s[i]) {
      DigitRunDigits(s, i + 1);
      var n := DigitRun(s, i + 1);
      assert s[i..i + 1 + n] == [s[i]] + s[i + 1..i + 1 + n];
    }
  }

  /** The length of the run of word characters starting at `i` (`\w*`). */
  function WordRun(s: string, i: nat): (n: nat)
    requires i <= |s|
    ensures i + n <= |s|
    decreases |s| - i
  {
    if i < |s| && IsWordChar(s[i]) then 1 + WordRun(s, i + 1) else 0
  }

  /** `\w*` takes the whole run of word characters. */
  lemma {:induction false} WordRunWords(s: string, i: nat)
    requires i <= |s|
    ensures forall k :: i <= k < i + WordRun(s, i) ==> IsWordChar(s[k])
    ensures i + WordRun(s, i) < |s| ==> !IsWordChar(s[i + WordRun(s, i)])
    decreases |s| - i
  {
    if i < |s| && IsWordChar(s[i]) {
      WordRunWords(s, i + 1);
    }
  }

  /** `s[i:i+6] == 'await '`, written character by character. */
  predicate AwaitAt(s: string, i: nat) {
    && i + 6 <= |s|
    && s[i] == 'a' && s[i + 1] == 'w' && s[i + 2] == 'a' && s[i + 3] == 'i' && s[i + 4] == 't'
    && s[i + 5] == ' '
  }

  lemma AwaitAtSlice(s: string, i: nat)
    ensures AwaitAt(s, i) <==> i + 6 <= |s| && s[i..i + 6] == "await "
  {
    if i + 6 <= |s| {
      var w := s[i..i + 6];
      assert w == [s[i], s[i + 1], s[i + 2], s[i + 3], s[i + 4], s[i + 5]];
    }
  }

  /** `s[i:i+1] == c`: the character under the cursor is `c`. */
  predicate CharAt(s: string, i: nat, c: char) {
    i < |s| && s[i] == c
  }

  // ---------------------------------------------------------------------------
  // The parsing routines as functions of the cursor position

  /** `parse_expr`: terms joined by `+` and `-`, folded to the left. */
  function ExprAt(s: string, i: nat): (r: Outcome)
    requires i <= |s|
    ensures Advances(s, i, r)
    decreases |s| - i, 5
  {
    match TermAt(s, i)
    case Err(err) => Err(err)
    case Ok(t) => ExprLoop(s, t.e, t.pos)
  }

  /** One pass round the `while True` loop of `parse_expr`, and the passes after it. */
  function ExprLoop(s: string, left: Expr, i: nat): (r: Outcome)
    requires i <= |s|
    ensures Advances(s, i, r)
    decreases |s| - i, 4
  {
    var j := Ws(s, i);
    if CharAt(s, j, '+') || CharAt(s, j, '-') then
      match TermAt(s, j + 1)
      case Err(err) => Err(err)
      case Ok(t) => ExprLoop(s, BinaryOp([s[j]], left, t.e), t.pos)
    else Ok(Parsed(left, j))
  }

  /** `parse_term`: atoms joined by `*` and `/`, folded to the left. */
  function TermAt(s: string, i: nat): (r: Outcome)
    requires i <= |s|
    ensures Advances(s, i, r)
    decreases |s| - i, 4
  {
    match AtomAt(s, i)
    case Err(err) => Err(err)
    case Ok(a) => TermLoop(s, a.e, a.pos)
  }

  function TermLoop(s: string, left: Expr, i: nat): (r: Outcome)
    requires i <= |s|
    ensures Advances(s, i, r)
    decreases |s| - i, 3
  {
    var j := Ws(s, i);
    if CharAt(s, j, '*') || CharAt(s, j, '/') then
      match AtomAt(s, j + 1)
      case Err(err) => Err(err)
      case Ok(a) => TermLoop(s, BinaryOp([s[j]], left, a.e), a.pos)
    else Ok(Parsed(left, j))
  }

  /** `parse_atom`: `await`, a quoted string, a list, a parenthesised
      expression, or else a number, name or call. */
  function AtomAt(s: string, i: nat): (r: Outcome)
    requires i <= |s|
    ensures Advances(s, i, r)
    decreases |s| - i, 3
  {
    AtomAfterWs(s, Ws(s, i))
  }

  /** `parse_atom` once the white space before the atom is consumed. */
  function AtomAfterWs(s: string, j: nat): (r: Outcome)
    requires j <= |s|
    ensures Advances(s, j, r)
    decreases |s| - j, 2
  {
    if AwaitAt(s, j) then
      match AtomAt(s, j + 6)
      case Err(err) => Err(err)
      case Ok(a) => Ok(Parsed(Await(a.e), a.pos))
    else if j < |s| && (s[j] == '"' || s[j] == '\'') then
      var end := FindFrom(s, s[j], j + 1);
      if end == -1 then Err(Unterminated)
      else Ok(Parsed(LiteralString(s[j + 1..end]), end + 1))
    else if j < |s| && s[j] == '[' then
      ListLoop(s, j + 1, [])
    else if j < |s| && s[j] == '(' then
      match ExprAt(s, j + 1)
      case Err(err) => Err(err)
      case Ok(x) => Ok(Parsed(x.e, if PeekAt(s, x.pos) == Some(')') then x.pos + 1 else x.pos))
    else NameOrCallAt(s, j)
  }

  /** `parse_name_or_call`: a digit run is a number; a name followed (after
      white space) by `(` is a call; a bare name is a name; anything else is
      `None`, with nothing consumed. */
  function NameOrCallAt(s: string, i: nat): (r: Outcome)
    requires i <= |s|
    ensures Advances(s, i, r)
    decreases |s| - i, 1
  {
    var d := DigitRun(s, i);
    if d > 0 then
      Ok(Parsed(LiteralInt(DigitsValue(s[i..i + d])), i + d))
    else if i < |s| && (IsAsciiLetter(s[i]) || s[i] == '_') then
      var n := 1 + WordRun(s, i + 1);
      CallOrNameAt(s, s[i..i + n], Ws(s, i + n))
    else Ok(Parsed(NoneExpr, i))
  }

  /** What follows a name, once the white space after it is consumed: the
      arguments of a call when `(` comes next, or else nothing more. */
  function CallOrNameAt(s: string, name: string, j: nat): (r: Outcome)
    requires j <= |s|
    ensures Advances(s, j, r)
    decreases |s| - j, 7
  {
    if PeekAt(s, j) == Some('(') then ArgsLoop(s, name, j + 1, [])
    else Ok(Parsed(NameExpr(name), j))
  }

  /** The argument loop of a call, entered with the arguments parsed so far. */
  function ArgsLoop(s: string, name: string, i: nat, args: seq<Expr>): (r: Outcome)
    requires i <= |s|
    ensures Advances(s, i, r)
    decreases |s| - i, 6
  {
    var j := Ws(s, i);
    if PeekAt(s, j) == Some(')') then Ok(Parsed(FunctionCall(name, args), j + 1))
    else
      match ExprAt(s, j)
      case Err(err) => Err(err)
      case Ok(x) =>
        var m := Ws(s, x.pos);
        if PeekAt(s, m) == Some(',') then ArgsLoop(s, name, m + 1, args + [x.e])
        else if PeekAt(s, m) == Some(')') then Ok(Parsed(FunctionCall(name, args + [x.e]), m + 1))
        else if m == j then Err(NoProgress)
        else ArgsLoop(s, name, m, args + [x.e])
  }

  /** The element loop of a list literal, entered with the elements parsed so far. */
  function ListLoop(s: string, i: nat, elems: seq<Expr>): (r: Outcome)
    requires i <= |s|
    ensures Advances(s, i, r)
    decreases |s| - i, 6
  {
    var j := Ws(s, i);
    if PeekAt(s, j) == Some(']') then Ok(Parsed(ListLiteral(elems), j + 1))
    else
      match ExprAt(s, j)
      case Err(err) => Err(err)
      case Ok(x) =>
        var m := Ws(s, x.pos);
        if PeekAt(s, m) == Some(',') then ListLoop(s, m + 1, elems + [x.e])
        else if PeekAt(s, m) == Some(']') then Ok(Parsed(ListLiteral(elems + [x.e]), m + 1))
        else if m == j then Err(NoProgress)
        else ListLoop(s, m, elems + [x.e])
  }

  /** On an empty text every routine falls through to `None` and consumes nothing. */
  lemma BlankReadsNone()
    ensures ExprAt([], 0) == Ok(Parsed(NoneExpr, 0))
  {
  }

  /** `_ExprParser(src).parse_expr()`: the expression at the start of the
      stripped text; whatever follows it is ignored. */
  function ParseExpression(src: string): (r: Result<Expr, ParseError>)
    ensures r.Ok? <==> ExprAt(Strip(src), 0).Ok?
    ensures r.Ok? ==> r.value == ExprAt(Strip(src), 0).value.e
  {
    match ExprAt(Strip(src), 0)
    case Err(err) => Err(err)
    case Ok(x) => Ok(x.e)
  }

  // ---------------------------------------------------------------------------
  // The parser object

  /** The outcome `r` of a method and its final cursor `pos` agree with a routine's outcome. */
  predicate Agrees(r: Result<Expr, ParseError>, pos: nat, spec: Outcome) {
    && (r.Ok? <==> spec.Ok?)
    && (r.Ok? ==> r.value == spec.value.e && pos == spec.value.pos)
    && (r.Err? ==> r.error == spec.error)
  }

  class Cursor {
    const s: string
    var i: nat

    constructor (src: string)
      ensures s == Strip(src) && i == 0
    {
      s := Strip(src);
      i := 0;
    }

    /** `peek`: the character under the cursor, `None` once the text is used up. */
    function Peek(): (c: Option<char>)
      reads this
      ensures c.None? <==> i >= |s|
      ensures c.Some? ==> c.value == s[i]
      ensures c == PeekAt(s, i)
    {
      if i < |s| then Some(s[i]) else None
    }

    method ConsumeWs()
      requires i <= |s|
      modifies this
      ensures i == Ws(s, old(i))
    {
      while i < |s| && IsSpace(s[i])
        invariant old(i) <= i <= |s|
        invariant Ws(s, i) == Ws(s, old(i))
        decreases |s| - i
      {
        i := i + 1;
      }
    }

    method ParseNameOrCall() returns (r: Result<Expr, ParseError>)
      requires i <= |s|
      modifies this
      ensures old(i) <= i <= |s|
      ensures Agrees(r, i, NameOrCallAt(s, old(i)))
      decreases |s| - i, 2
    {
      var i0 := i;
      ghost var spec := NameOrCallAt(s, i0);
      var d := DigitRun(s, i0);
      if d > 0 {
        i := i + d;
        r := Ok(LiteralInt(DigitsValue(s[i0..i0 + d])));
        assert spec == Ok(Parsed(r.value, i));
        return;
      }
      if i < |s| && (IsAsciiLetter(s[i]) || s[i] == '_') {
        var n := 1 + WordRun(s, i0 + 1);
        var name := s[i0..i0 + n];
        i := i + n;
        ConsumeWs();
        assert spec == CallOrNameAt(s, name, i);
        if Peek() == Some('(') {
          i := i + 1;
          r := ParseArgs(name);
          return;
        }
        return Ok(NameExpr(name));
      }
      assert spec == Ok(Parsed(NoneExpr, i));
      return Ok(NoneExpr);
    }

    /** The `while True` loop over call arguments, entered just after `(`. */
    method ParseArgs(name: string) returns (r: Result<Expr, ParseError>)
      requires i <= |s|
      modifies this
      ensures old(i) <= i <= |s|
      ensures Agrees(r, i, ArgsLoop(s, name, old(i), []))
      decreases |s| - i, 6
    {
      var args: seq<Expr> := [];
      while true
        invariant old(i) <= i <= |s|
        invariant ArgsLoop(s, name, i, args) == ArgsLoop(s, name, old(i), [])
        decreases |s| - i
      {
        ConsumeWs();
        var j := i;
        if Peek() == Some(')') {
          i := i + 1;
          return Ok(FunctionCall(name, args));
        }
        var x := ParseExpr();
        if x.Err? {
          return Err(x.error);
        }
        ConsumeWs();
        if Peek() == Some(',') {
          i := i + 1;
          args := args + [x.value];
          continue;
        }
        if Peek() == Some(')') {
          i := i + 1;
          return Ok(FunctionCall(name, args + [x.value]));
        }
        if i == j {
          return Err(NoProgress);
        }
        args := args + [x.value];
      }
    }

    /** The `while True` loop over list elements, entered just after `[`. */
    method ParseListElements() returns (r: Result<Expr, ParseError>)
      requires i <= |s|
      modifies this
      ensures old(i) <= i <= |s|
      ensures Agrees(r, i, ListLoop(s, old(i), []))
      decreases |s| - i, 6
    {
      var elems: seq<Expr> := [];
      while true
        invariant old(i) <= i <= |s|
        invariant ListLoop(s, i, elems) == ListLoop(s, old(i), [])
        decreases |s| - i
      {
        ConsumeWs();
        var j := i;
        if Peek() == Some(']') {
          i := i + 1;
          return Ok(ListLiteral(elems));
        }
        var x := ParseExpr();
        if x.Err? {
          return Err(x.error);
        }
        ConsumeWs();
        if Peek() == Some(',') {
          i := i + 1;
          elems := elems + [x.value];
          continue;
        }
        if Peek() == Some(']') {
          i := i + 1;
          return Ok(ListLiteral(elems + [x.value]));
        }
        if i == j {
          return Err(NoProgress);
        }
        elems := elems + [x.value];
      }
    }

    method ParseAtom() returns (r: Result<Expr, ParseError>)
      requires i <= |s|
      modifies this
      ensures old(i) <= i <= |s|
      ensures Agrees(r, i, AtomAt(s, old(i)))
      decreases |s| - i, 3
    {
      ConsumeWs();
      if AwaitAt(s, i) {
        i := i + 6;
        var a := ParseAtom();
        if a.Err? {
          return Err(a.error);
        }
        return Ok(Await(a.value));
      }
      var ch := Peek();
      if ch == Some('"') || ch == Some('\'') {
        var quote := ch.value;
        var end := FindFrom(s, quote, i + 1);
        if end == -1 {
          return Err(Unterminated);
        }
        var val := s[i + 1..end];
        i := end + 1;
        return Ok(LiteralString(val));
      }
      if ch == Some('[') {
        i := i + 1;
        r := ParseListElements();
        return;
      }
      if ch == Some('(') {
        i := i + 1;
        var x := ParseExpr();
        if x.Err? {
          return Err(x.error);
        }
        if Peek() == Some(')') {
          i := i + 1;
        }
        return Ok(x.value);
      }
      r := ParseNameOrCall();
    }

    method ParseTerm() returns (r: Result<Expr, ParseError>)
      requires i <= |s|
      modifies this
      ensures old(i) <= i <= |s|
      ensures Agrees(r, i, TermAt(s, old(i)))
      decreases |s| - i, 4
    {
      var a := ParseAtom();
      if a.Err? {
        return Err(a.error);
      }
      var left := a.value;
      while true
        invariant old(i) <= i <= |s|
        invariant TermLoop(s, left, i) == TermAt(s, old(i))
        decreases |s| - i
      {
        ConsumeWs();
        if CharAt(s, i, '*') || CharAt(s, i, '/') {
          var op := [s[i]];
          i := i + 1;
          var right := ParseAtom();
          if right.Err? {
            return Err(right.error);
          }
          left := BinaryOp(op, left, right.value);
          continue;
        }
        return Ok(left);
      }
    }

    method ParseExpr() returns (r: Result<Expr, ParseError>)
      requires i <= |s|
      modifies this
      ensures old(i) <= i <= |s|
      ensures Agrees(r, i, ExprAt(s, old(i)))
      decreases |s| - i, 5
    {
      var t := ParseTerm();
      if t.Err? {
        return Err(t.error);
      }
      var left := t.value;
      while true
        invariant old(i) <= i <= |s|
        invariant ExprLoop(s, left, i) == ExprAt(s, old(i))
        decreases |s| - i
      {
        ConsumeWs();
        if CharAt(s, i, '+') || CharAt(s, i, '-') {
          var op := [s[i]];
          i := i + 1;
          var right := ParseTerm();
          if right.Err? {
            return Err(right.error);
          }
          left := BinaryOp(op, left, right.value);
          continue;
        }
        return Ok(left);
      }
    }
  }

  /** `_ExprParser(src).parse_expr()` run on a fresh parser object. */
  method ParseSource(src: string) returns (r: Result<Expr, ParseError>)
    ensures r == ParseExpression(src)
  {
    var p := new Cursor(src);
    r := p.ParseExpr();
  }
}
