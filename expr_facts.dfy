/** What the fallback expression parser promises: operator precedence and
    left associativity, raw string literals, and the list and argument loops
    that never finish once the input is used up. */
module ExprFacts {
  import opened Wrappers
  import opened Text
  import opened Ast
  import opened ExprParser

  predicate IsOperator(c: char) { c == '+' || c == '-' || c == '*' || c == '/' }

  predicate IsMulOp(c: char) { c == '*' || c == '/' }

  /** The tree ordinary arithmetic gives `x o1 y o2 z`: `*` and `/` bind
      tighter than `+` and `-`, and operators of one level group to the left. */
  function Grouped(x: Expr, o1: char, y: Expr, o2: char, z: Expr): Expr {
    if IsMulOp(o2) && !IsMulOp(o1) then BinaryOp([o1], x, BinaryOp([o2], y, z))
    else BinaryOp([o2], BinaryOp([o1], x, y), z)
  }

  // ---------------------------------------------------------------------------
  // One step of each routine

  lemma {:induction false} DigitRunOf(s: string, i: nat, d: string)
    requires i + |d| <= |s| && s[i..i + |d|] == d && AllDigits(d)
    requires i + |d| == |s| || !IsDigit(s[i + |d|])
    ensures DigitRun(s, i) == |d|
    decreases |d|
  {
    if d != [] {
      assert s[i] == d[0];
      assert s[i + 1..i + 1 + |d[1..]|] == d[1..];
      DigitRunOf(s, i + 1, d[1..]);
    }
  }

  /** An atom that starts with none of `await`, a quote, `[` or `(` is a number,
      a name or a call. */
  lemma PlainAtom(s: string, i: nat)
    requires i < |s| && !IsSpace(s[i]) && s[i] != 'a'
    requires s[i] != '"' && s[i] != '\'' && s[i] != '[' && s[i] != '('
    ensures AtomAt(s, i) == NameOrCallAt(s, i)
  {
    assert Ws(s, i) == i;
  }

  /** A run of digits that no further digit follows is read as its number. */
  lemma NumberAtom(s: string, i: nat, d: string)
    requires i + |d| <= |s| && s[i..i + |d|] == d && d != [] && AllDigits(d)
    requires i + |d| == |s| || !IsDigit(s[i + |d|])
    ensures AtomAt(s, i) == Ok(Parsed(LiteralInt(DigitsValue(d)), i + |d|))
  {
    DigitRunOf(s, i, d);
    assert s[i] == d[0];
    PlainAtom(s, i);
  }

  /** The `*`/`/` loop stops where neither operator nor white space comes next. */
  lemma TermLoopStops(s: string, left: Expr, p: nat)
    requires p <= |s|
    requires p == |s| || (!IsSpace(s[p]) && !IsMulOp(s[p]))
    ensures TermLoop(s, left, p) == Ok(Parsed(left, p))
  {
    assert Ws(s, p) == p;
  }

  /** The `+`/`-` loop stops where neither operator nor white space comes next. */
  lemma ExprLoopStops(s: string, left: Expr, p: nat)
    requires p <= |s|
    requires p == |s| || (!IsSpace(s[p]) && s[p] != '+' && s[p] != '-')
    ensures ExprLoop(s, left, p) == Ok(Parsed(left, p))
  {
    assert Ws(s, p) == p;
  }

  /** A `*` or `/` under the cursor joins the tree so far with the next atom. */
  lemma TermLoopStep(s: string, left: Expr, p: nat)
    requires p < |s| && IsMulOp(s[p])
    requires AtomAt(s, p + 1).Ok?
    ensures var a := AtomAt(s, p + 1).value;
      TermLoop(s, left, p) == TermLoop(s, BinaryOp([s[p]], left, a.e), a.pos)
  {
    assert Ws(s, p) == p;
  }

  /** A `+` or `-` under the cursor joins the tree so far with the next term. */
  lemma ExprLoopStep(s: string, left: Expr, p: nat)
    requires p < |s| && (s[p] == '+' || s[p] == '-')
    requires TermAt(s, p + 1).Ok?
    ensures var t := TermAt(s, p + 1).value;
      ExprLoop(s, left, p) == ExprLoop(s, BinaryOp([s[p]], left, t.e), t.pos)
  {
    assert Ws(s, p) == p;
  }

  // ---------------------------------------------------------------------------
  // Precedence and associativity

  /** Three atoms separated by two operators, with no white space, parse as
      `Grouped` says. */
  lemma {:induction false} GroupedAt(s: string, p1: nat, p2: nat, x: Expr, y: Expr, z: Expr)
    requires p1 < p2 < |s| && IsOperator(s[p1]) && IsOperator(s[p2])
    requires AtomAt(s, 0) == Ok(Parsed(x, p1))
    requires AtomAt(s, p1 + 1) == Ok(Parsed(y, p2))
    requires AtomAt(s, p2 + 1) == Ok(Parsed(z, |s|))
    ensures ExprAt(s, 0) == Ok(Parsed(Grouped(x, s[p1], y, s[p2], z), |s|))
  {
    var o1, o2 := s[p1], s[p2];
    TermLoopStops(s, z, |s|);
    if IsMulOp(o1) {
      TermLoopStep(s, x, p1);
      if IsMulOp(o2) {
        TermLoopStep(s, BinaryOp([o1], x, y), p2);
        TermLoopStops(s, BinaryOp([o2], BinaryOp([o1], x, y), z), |s|);
        ExprLoopStops(s, BinaryOp([o2], BinaryOp([o1], x, y), z), |s|);
      } else {
        TermLoopStops(s, BinaryOp([o1], x, y), p2);
        ExprLoopStep(s, BinaryOp([o1], x, y), p2);
        ExprLoopStops(s, BinaryOp([o2], BinaryOp([o1], x, y), z), |s|);
      }
    } else {
      TermLoopStops(s, x, p1);
      if IsMulOp(o2) {
        TermLoopStep(s, y, p2);
        TermLoopStops(s, BinaryOp([o2], y, z), |s|);
        ExprLoopStep(s, x, p1);
        ExprLoopStops(s, BinaryOp([o1], x, BinaryOp([o2], y, z)), |s|);
      } else {
        TermLoopStops(s, y, p2);
        ExprLoopStep(s, x, p1);
        ExprLoopStep(s, BinaryOp([o1], x, y), p2);
        ExprLoopStops(s, BinaryOp([o2], BinaryOp([o1], x, y), z), |s|);
      }
    }
  }

  /** The whole stripped text is one expression. */
  lemma ParseWhole(s: string, e: Expr)
    requires IsStripped(s)
    requires ExprAt(s, 0) == Ok(Parsed(e, |s|))
    ensures ParseExpression(s) == Ok(e)
  {
  }

  /** A text of three numbers separated by two operators. */
  predicate ThreeNumbers(s: string, p1: nat, p2: nat) {
    && 0 < p1 && p1 + 1 < p2 && p2 + 1 < |s|
    && DigitRun(s, 0) == p1 && DigitRun(s, p1 + 1) == p2 - p1 - 1 && DigitRun(s, p2 + 1) == |s| - p2 - 1
    && IsOperator(s[p1]) && IsOperator(s[p2])
  }

  /** The number whose digits are `s[i..j]`. */
  function NumberAt(s: string, i: nat, j: nat): Expr
    requires i <= j <= |s|
  {
    LiteralInt(DigitsValue(s[i..j]))
  }

  /** A digit under the cursor starts a number. */
  lemma NumberRunAtom(s: string, i: nat, j: nat)
    requires i < j <= |s| && j == i + DigitRun(s, i)
    ensures AtomAt(s, i) == Ok(Parsed(NumberAt(s, i, j), j))
  {
    PlainAtom(s, i);
  }

  lemma NumbersGroupedAt(s: string, p1: nat, p2: nat)
    requires ThreeNumbers(s, p1, p2)
    ensures ExprAt(s, 0) == Ok(Parsed(Grouped(NumberAt(s, 0, p1), s[p1],
      NumberAt(s, p1 + 1, p2), s[p2], NumberAt(s, p2 + 1, |s|)), |s|))
  {
    NumberRunAtom(s, 0, p1);
    NumberRunAtom(s, p1 + 1, p2);
    NumberRunAtom(s, p2 + 1, |s|);
    GroupedAt(s, p1, p2, NumberAt(s, 0, p1), NumberAt(s, p1 + 1, p2), NumberAt(s, p2 + 1, |s|));
  }

  lemma GroupedNumbers(s: string, p1: nat, p2: nat, x: Expr, y: Expr, z: Expr)
    ensures (ThreeNumbers(s, p1, p2) && x == NumberAt(s, 0, p1) && y == NumberAt(s, p1 + 1, p2)
        && z == NumberAt(s, p2 + 1, |s|)) ==>
      ParseExpression(s) == Ok(Grouped(x, s[p1], y, s[p2], z))
  {
    if ThreeNumbers(s, p1, p2) && x == NumberAt(s, 0, p1) && y == NumberAt(s, p1 + 1, p2)
      && z == NumberAt(s, p2 + 1, |s|)
    {
      NumbersGroupedAt(s, p1, p2);
      DigitRunDigits(s, p2 + 1);
      assert s[p2 + 1..|s|][|s| - p2 - 2] == s[|s| - 1];
      ParseWhole(s, Grouped(x, s[p1], y, s[p2], z));
    }
  }

  /** `a o1 b o2 c` over three numbers parses as ordinary arithmetic groups it:
      `1+2*3` is `1+(2*3)`, while `1*2+3`, `1-2-3` and `8/4/2` group to the left. */
  lemma Precedence(a: string, o1: char, b: string, o2: char, c: string)
    requires a != [] && b != [] && c != [] && AllDigits(a) && AllDigits(b) && AllDigits(c)
    requires IsOperator(o1) && IsOperator(o2)
    ensures ParseExpression(a + [o1] + b + [o2] + c)
      == Ok(Grouped(LiteralInt(DigitsValue(a)), o1, LiteralInt(DigitsValue(b)), o2, LiteralInt(DigitsValue(c))))
  {
    var s := a + [o1] + b + [o2] + c;
    ThreeSlices(a, o1, b, o2, c);
    PrecedenceAt(s, a, b, c, |a|, |a| + 1 + |b|);
  }

  /** The text `a o1 b o2 c` cut back into its five parts. */
  lemma ThreeSlices(a: string, o1: char, b: string, o2: char, c: string)
    ensures var s := a + [o1] + b + [o2] + c;
      && |s| == |a| + 1 + |b| + 1 + |c|
      && s[0..|a|] == a && s[|a|] == o1
      && s[|a| + 1..|a| + 1 + |b|] == b && s[|a| + 1 + |b|] == o2
      && s[|a| + 1 + |b| + 1..|s|] == c
  {
  }

  /** `Precedence` over a text already cut into its parts. */
  lemma PrecedenceAt(s: string, a: string, b: string, c: string, p1: nat, p2: nat)
    requires a != [] && b != [] && c != [] && AllDigits(a) && AllDigits(b) && AllDigits(c)
    requires p1 == |a| && p2 == p1 + 1 + |b| && |s| == p2 + 1 + |c|
    requires s[0..p1] == a && s[p1 + 1..p2] == b && s[p2 + 1..|s|] == c
    requires IsOperator(s[p1]) && IsOperator(s[p2])
    ensures ParseExpression(s) == Ok(Grouped(LiteralInt(DigitsValue(a)), s[p1],
      LiteralInt(DigitsValue(b)), s[p2], LiteralInt(DigitsValue(c))))
  {
    NumbersAt(s, a, b, c, p1, p2);
    GroupedNumbers(s, p1, p2, LiteralInt(DigitsValue(a)), LiteralInt(DigitsValue(b)), LiteralInt(DigitsValue(c)));
  }

  /** The three digit runs of a text cut into its parts, and their numbers. */
  lemma NumbersAt(s: string, a: string, b: string, c: string, p1: nat, p2: nat)
    requires a != [] && b != [] && c != [] && AllDigits(a) && AllDigits(b) && AllDigits(c)
    requires p1 == |a| && p2 == p1 + 1 + |b| && |s| == p2 + 1 + |c|
    requires s[0..p1] == a && s[p1 + 1..p2] == b && s[p2 + 1..|s|] == c
    requires IsOperator(s[p1]) && IsOperator(s[p2])
    ensures ThreeNumbers(s, p1, p2)
    ensures NumberAt(s, 0, p1) == LiteralInt(DigitsValue(a))
    ensures NumberAt(s, p1 + 1, p2) == LiteralInt(DigitsValue(b))
    ensures NumberAt(s, p2 + 1, |s|) == LiteralInt(DigitsValue(c))
  {
    NumberPart(s, 0, p1, a);
    NumberPart(s, p1 + 1, p2, b);
    NumberPart(s, p2 + 1, |s|, c);
  }

  /** The digits `d` at `i`, followed by a non-digit or the end, are the number `d`. */
  lemma NumberPart(s: string, i: nat, j: nat, d: string)
    requires j == i + |d| <= |s| && s[i..j] == d && AllDigits(d)
    requires j == |s| || !IsDigit(s[j])
    ensures DigitRun(s, i) == j - i
    ensures NumberAt(s, i, j) == LiteralInt(DigitsValue(d))
  {
    DigitRunOf(s, i, d);
  }

  // ---------------------------------------------------------------------------
  // String literals

  /** A quoted string is the raw text up to the next matching quote, with no
      escape processing. */
  lemma StringAtom(q: char, t: string, rest: string)
    requires q == '"' || q == '\''
    requires q !in t
    ensures AtomAt([q] + t + [q] + rest, 0) == Ok(Parsed(LiteralString(t), |t| + 2))
  {
    var s := [q] + t + [q] + rest;
    assert Ws(s, 0) == 0;
    assert forall k :: 1 <= k < |t| + 1 ==> s[k] == t[k - 1];
    assert s[|t| + 1] == q;
    assert forall k :: 1 <= k < |t| + 1 ==> s[k] != q;
    assert FindFrom(s, q, 1) == |t| + 1;
    assert s[1..|t| + 1] == t;
  }

  /** A quote without its closing partner is an error. */
  lemma UnterminatedString(q: char, t: string)
    requires q == '"' || q == '\''
    requires q !in t
    ensures AtomAt([q] + t, 0) == Err(Unterminated)
  {
    var s := [q] + t;
    assert Ws(s, 0) == 0;
    assert forall k :: 1 <= k < |s| ==> s[k] == t[k - 1];
  }

  /** An atom that fills the whole text is the whole expression. */
  lemma WholeAtom(s: string, e: Expr)
    requires AtomAt(s, 0) == Ok(Parsed(e, |s|))
    ensures ExprAt(s, 0) == Ok(Parsed(e, |s|))
  {
    TermLoopStops(s, e, |s|);
    ExprLoopStops(s, e, |s|);
  }

  /** A blank source reads as `None`: no branch of `parse_atom` matches at its end. */
  lemma BlankExpression(src: string)
    requires forall k :: 0 <= k < |src| ==> IsSpace(src[k])
    ensures ParseExpression(src) == Ok(NoneExpr)
  {
    StripBlank(src);
    BlankReadsNone();
  }

  /** White space around an expression does not change how it reads. */
  lemma OuterSpaceIgnored(p: string, src: string, q: string)
    requires forall k :: 0 <= k < |p| ==> IsSpace(p[k])
    requires forall k :: 0 <= k < |q| ==> IsSpace(q[k])
    ensures ParseExpression(p + src + q) == ParseExpression(src)
  {
    StripPadded(p, src, q);
  }

  /** The whole text `"t"` parses to the string `t`. */
  lemma StringExpression(q: char, t: string)
    requires q == '"' || q == '\''
    requires q !in t
    ensures ParseExpression([q] + t + [q]) == Ok(LiteralString(t))
  {
    var s := [q] + t + [q];
    assert s == [q] + t + [q] + [];
    StringAtom(q, t, []);
    WholeAtom(s, LiteralString(t));
    ParseWhole(s, LiteralString(t));
  }

  // ---------------------------------------------------------------------------
  // Loops that never end

  /** At the end of the input an expression is `None` and consumes nothing. */
  lemma NothingAtEnd(s: string, i: nat)
    requires i <= |s| && Ws(s, i) == |s|
    ensures ExprAt(s, i) == Ok(Parsed(NoneExpr, |s|))
  {
    assert AtomAfterWs(s, |s|) == NameOrCallAt(s, |s|);
    assert AtomAt(s, i) == Ok(Parsed(NoneExpr, |s|));
    TermLoopStops(s, NoneExpr, |s|);
    ExprLoopStops(s, NoneExpr, |s|);
  }

  /** An argument list still open when the input runs out would repeat forever. */
  lemma ArgsNeverEnd(s: string, name: string, i: nat, args: seq<Expr>)
    requires i <= |s| && Ws(s, i) == |s|
    ensures ArgsLoop(s, name, i, args) == Err(NoProgress)
  {
    NothingAtEnd(s, |s|);
  }

  /** A list still open when the input runs out would repeat forever. */
  lemma ListNeverEnds(s: string, i: nat, elems: seq<Expr>)
    requires i <= |s| && Ws(s, i) == |s|
    ensures ListLoop(s, i, elems) == Err(NoProgress)
  {
    NothingAtEnd(s, |s|);
  }

  /** A call is complete only after a `)`: so a text without one never
      yields a finished call. */
  lemma {:induction false} ArgsEndWithParen(s: string, name: string, i: nat, args: seq<Expr>)
    requires i <= |s|
    ensures var r := ArgsLoop(s, name, i, args);
      r.Ok? ==> 0 < r.value.pos && s[r.value.pos - 1] == ')'
    decreases |s| - i
  {
    var j := Ws(s, i);
    if PeekAt(s, j) != Some(')') {
      var x := ExprAt(s, j);
      if x.Ok? {
        var m := Ws(s, x.value.pos);
        if PeekAt(s, m) == Some(',') {
          ArgsEndWithParen(s, name, m + 1, args + [x.value.e]);
        } else if PeekAt(s, m) != Some(')') && m != j {
          ArgsEndWithParen(s, name, m, args + [x.value.e]);
        }
      }
    }
  }

  /** A list is complete only after a `]`. */
  lemma {:induction false} ListEndsWithBracket(s: string, i: nat, elems: seq<Expr>)
    requires i <= |s|
    ensures var r := ListLoop(s, i, elems);
      r.Ok? ==> 0 < r.value.pos && s[r.value.pos - 1] == ']'
    decreases |s| - i
  {
    var j := Ws(s, i);
    if PeekAt(s, j) != Some(']') {
      var x := ExprAt(s, j);
      if x.Ok? {
        var m := Ws(s, x.value.pos);
        if PeekAt(s, m) == Some(',') {
          ListEndsWithBracket(s, m + 1, elems + [x.value.e]);
        } else if PeekAt(s, m) != Some(']') && m != j {
          ListEndsWithBracket(s, m, elems + [x.value.e]);
        }
      }
    }
  }
}
