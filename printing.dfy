/** What the three printers (the JavaScript and Python code generators and the
    MetaScript unparser) share: the shape of an expression's text, the
    indentation unit, and the two ways of writing a string literal. The
    printers differ only in how a string literal is quoted and in the text
    they give an expression kind they do not know. */
module Printing {
  import opened Text
  import opened Ast

  /** A printer's choice for the two leaves that differ between targets. */
  datatype Style = Style(literal: string -> string, other: string)

  /** `_emit_expr` / `_unparse_expr`: literals, names, `[a, b]`, `name(a, b)`,
      `(l op r)` and `await x`; any other expression is `st.other`. */
  function ShowExpr(st: Style, e: Expr): string
    decreases e
  {
    match e
    case LiteralString(s) => st.literal(s)
    case LiteralInt(n) => IntToString(n)
    case NameExpr(id) => id
    case ListLiteral(es) => "[" + Join(ShowExprs(st, es), ", ") + "]"
    case FunctionCall(name, args) => name + "(" + Join(ShowExprs(st, args), ", ") + ")"
    case BinaryOp(op, l, r) => "(" + ShowExpr(st, l) + " " + op + " " + ShowExpr(st, r) + ")"
    case Await(x) => "await " + ShowExpr(st, x)
    case UnaryOp(_, _) => st.other
    case NoneExpr => st.other
  }

  function ShowExprs(st: Style, es: seq<Expr>): (r: seq<string>)
    ensures |r| == |es|
    ensures forall k :: 0 <= k < |es| ==> r[k] == ShowExpr(st, es[k])
    decreases es
  {
    if es == [] then [] else [ShowExpr(st, es[0])] + ShowExprs(st, es[1..])
  }

  /** A binary operation is printed fully parenthesised, whatever its operands. */
  lemma BinaryParenthesised(st: Style, op: string, l: Expr, r: Expr)
    ensures var t := ShowExpr(st, BinaryOp(op, l, r));
      |t| >= 2 && t[0] == '(' && t[|t| - 1] == ')'
      && t == "(" + ShowExpr(st, l) + " " + op + " " + ShowExpr(st, r) + ")"
  {
  }

  /** `' ' * (4 * indent)`. */
  function Pad(indent: nat): (r: string)
    ensures |r| == 4 * indent
    ensures forall k :: 0 <= k < |r| ==> r[k] == ' '
  {
    seq(4 * indent, _ => ' ')
  }

  lemma PadStep(indent: nat)
    ensures Pad(indent + 1) == Pad(indent) + "    "
  {
    assert |Pad(indent + 1)| == |Pad(indent) + "    "|;
  }

  // ---------------------------------------------------------------------------
  // Double-quoted literals (JavaScript and MetaScript)

  /** `s.replace('"', '\\"')`. */
  function Escaped(s: string): string {
    ReplaceChar(s, '"', "\\\"")
  }

  /** `'"' + s.replace('"', '\\"') + '"'`. */
  function Quoted(s: string): string {
    "\"" + Escaped(s) + "\""
  }

  /** A text with no quote character is quoted as it is. */
  lemma QuotedPlain(s: string)
    requires '"' !in s
    ensures Quoted(s) == "\"" + s + "\""
  {
  }

  /** After escaping, every quote character is preceded by a backslash. */
  lemma {:induction false} EscapedQuotes(s: string)
    ensures var t := Escaped(s); forall k :: 0 <= k < |t| && t[k] == '"' ==> k > 0 && t[k - 1] == '\\'
    ensures Escaped(s) == [] <==> s == []
    ensures s != [] && s[0] == '"' ==> Escaped(s)[0] == '\\'
    ensures s != [] && s[0] != '"' ==> Escaped(s)[0] == s[0]
  {
    if s != [] {
      EscapedQuotes(s[1..]);
      var head := if s[0] == '"' then "\\\"" else [s[0]];
      var t := Escaped(s);
      assert t == head + Escaped(s[1..]);
      forall k | 0 <= k < |t| && t[k] == '"'
        ensures k > 0 && t[k - 1] == '\\'
      {
        if k >= |head| {
          var rest := Escaped(s[1..]);
          assert rest[k - |head|] == '"';
          if k == |head| {
            assert false;
          }
        }
      }
    }
  }

  /** An escaped text never starts with a quote character. */
  lemma FirstNotQuote(s: string, c: char)
    requires s != [] ==> c == Escaped(s)[0]
    ensures s != [] ==> c != '"'
  {
    if s != [] {
      assert Escaped(s) == (if s[0] == '"' then "\\\"" else [s[0]]) + Escaped(s[1..]);
    }
  }

  /** Distinct texts give distinct escaped texts. */
  lemma {:induction false} EscapedInjective(s: string, u: string)
    requires Escaped(s) == Escaped(u)
    ensures s == u
    decreases |s|
  {
    EscapedQuotes(s);
    EscapedQuotes(u);
    if s != [] && u != [] {
      var hs := if s[0] == '"' then "\\\"" else [s[0]];
      var hu := if u[0] == '"' then "\\\"" else [u[0]];
      assert Escaped(s) == hs + Escaped(s[1..]);
      assert Escaped(u) == hu + Escaped(u[1..]);
      if s[0] == '"' && u[0] != '"' {
        FirstNotQuote(u[1..], Escaped(s)[1]);
        assert false;
      } else if s[0] != '"' && u[0] == '"' {
        FirstNotQuote(s[1..], Escaped(u)[1]);
        assert false;
      }
      assert hs == hu;
      assert Escaped(s)[|hs|..] == Escaped(s[1..]);
      assert Escaped(u)[|hu|..] == Escaped(u[1..]);
      EscapedInjective(s[1..], u[1..]);
    }
  }

  // ---------------------------------------------------------------------------
  // Python's `repr` of a string

  /** The quote `repr` chooses: `"` when the text holds `'` and no `"`, otherwise `'`. */
  function ReprQuote(s: string): char {
    if '\'' in s && '"' !in s then '"' else '\''
  }

  function HexDigit(d: nat): (c: char)
    requires d < 16
  {
    if d < 10 then DigitChar(d) else (('a' as int) + d - 10) as char
  }

  /** `n` as `width` lower-case hexadecimal digits. */
  function Hex(n: nat, width: nat): (r: string)
    ensures |r| == width
  {
    if width == 0 then [] else Hex(n / 16, width - 1) + [HexDigit(n % 16)]
  }

  /** Characters `repr` writes as a `\xhh` escape: the C0 controls other than
      tab, line feed and carriage return, and 0x7f to 0xa0 and 0xad. */
  predicate HexEscaped(c: char) {
    c < ' ' || ('\U{7F}' <= c <= '\U{A0}') || c == '\U{AD}'
  }

  /** How `repr` writes one character inside quotes `q`: backslash, the
      quote, tab, line feed and carriage return, the `HexEscaped` characters
      and U+2028/U+2029 are escaped; every other character is written as it is. */
  function ReprChar(c: char, q: char): (r: string)
    ensures r != []
  {
    if c == '\\' then "\\\\"
    else if c == q then ['\\', q]
    else if c == '\t' then "\\t"
    else if c == '\n' then "\\n"
    else if c == '\r' then "\\r"
    else if HexEscaped(c) then "\\x" + Hex(c as nat, 2)
    else if c == '\U{2028}' || c == '\U{2029}' then "\\u" + Hex(c as nat, 4)
    else [c]
  }

  function ReprBody(s: string, q: char): string {
    if s == [] then [] else ReprChar(s[0], q) + ReprBody(s[1..], q)
  }

  /** Python's `repr(s)` for a `str`, restricted to the escapes listed in
      `ReprChar`: other characters Python counts as not printable (for
      example U+200B) are written as they are here, where `repr` would
      escape them with `\u` or `\U`. */
  function Repr(s: string): string {
    var q := ReprQuote(s);
    [q] + ReprBody(s, q) + [q]
  }

  /** No character `repr` writes is a line break. */
  lemma ReprCharNoBreak(c: char, q: char)
    requires q == '\'' || q == '"'
    ensures NoLineBreak(ReprChar(c, q))
  {
    if !(c == '\\' || c == q || c == '\t' || c == '\n' || c == '\r' || HexEscaped(c)) {
      if c == '\U{2028}' || c == '\U{2029}' {
        var h := Hex(c as nat, 4);
        forall k | 0 <= k < 4
          ensures !IsLineBreak(h[k])
        {
          HexNoBreak(c as nat, 4, k);
        }
      }
    } else if HexEscaped(c) && !(c == '\\' || c == q || c == '\t' || c == '\n' || c == '\r') {
      var h := Hex(c as nat, 2);
      forall k | 0 <= k < 2
        ensures !IsLineBreak(h[k])
      {
        HexNoBreak(c as nat, 2, k);
      }
    }
  }

  lemma {:induction false} HexNoBreak(n: nat, width: nat, k: nat)
    requires k < width
    ensures '0' <= Hex(n, width)[k] <= 'f'
  {
    if k < width - 1 {
      HexNoBreak(n / 16, width - 1, k);
    }
  }

  lemma {:induction false} ReprBodyNoBreak(s: string, q: char)
    requires q == '\'' || q == '"'
    ensures NoLineBreak(ReprBody(s, q))
  {
    if s != [] {
      ReprCharNoBreak(s[0], q);
      ReprBodyNoBreak(s[1..], q);
    }
  }

  /** The literal `repr` writes never spans two lines, whatever the text. */
  lemma ReprNoBreak(s: string)
    ensures NoLineBreak(Repr(s))
  {
    ReprBodyNoBreak(s, ReprQuote(s));
  }

  /** Printable ASCII text without quotes or backslashes is written between single quotes as it is. */
  lemma {:induction false} ReprPlain(s: string)
    requires forall k :: 0 <= k < |s| ==> ' ' <= s[k] < '\U{7F}' && s[k] != '\'' && s[k] != '"' && s[k] != '\\'
    ensures Repr(s) == "'" + s + "'"
  {
    assert ReprQuote(s) == '\'';
    ReprBodyPlain(s);
  }

  lemma {:induction false} ReprBodyPlain(s: string)
    requires forall k :: 0 <= k < |s| ==> ' ' <= s[k] < '\U{7F}' && s[k] != '\'' && s[k] != '\\'
    ensures ReprBody(s, '\'') == s
  {
    if s != [] {
      ReprBodyPlain(s[1..]);
      assert ReprChar(s[0], '\'') == [s[0]];
      assert s == [s[0]] + s[1..];
    }
  }
}
