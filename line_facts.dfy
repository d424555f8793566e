/** Properties of the line parser of `metascript/parser.py`: what each
    statement form turns into, and what `_parse_pattern` gives for each
    kind of pattern text. */
module LineFacts {
  import opened Wrappers
  import opened Text
  import opened Ast
  import opened ExprParser
  import opened LineParser

  // ---------------------------------------------------------------------------
  // Positions in a line

  lemma TextAtChar(s: string, i: nat, w: string, k: nat)
    requires TextAt(s, i, w) && k < |w|
    ensures s[i + k] == w[k]
  {
  }

  /** A line whose first character differs from a keyword's does not start with it. */
  lemma NotKeyword(s: string, w: string)
    requires s != [] && w != [] && s[0] != w[0]
    ensures !TextAt(s, 0, w)
  {
  }

  lemma {:induction false} WsOver(s: string, i: nat, j: nat)
    requires i <= j <= |s|
    requires forall k :: i <= k < j ==> IsSpace(s[k])
    requires j == |s| || !IsSpace(s[j])
    ensures Ws(s, i) == j
    decreases j - i
  {
    if i < j {
      WsOver(s, i + 1, j);
    }
  }

  lemma {:induction false} WsBelow(s: string, i: nat, m: nat)
    requires i <= m < |s| && !IsSpace(s[m])
    ensures Ws(s, i) <= m
    decreases m - i
  {
    if i < m && IsSpace(s[i]) {
      WsBelow(s, i + 1, m);
    }
  }

  lemma {:induction false} WordRunOver(s: string, a: nat, b: nat)
    requires a <= b <= |s|
    requires forall k :: a <= k < b ==> IsWordChar(s[k])
    requires b == |s| || !IsWordChar(s[b])
    ensures WordRun(s, a) == b - a
    decreases b - a
  {
    if a < b {
      WordRunOver(s, a + 1, b);
    }
  }

  /** `\s*(.+)` at `p` takes everything from the first character that is not
      white space. */
  lemma RestAt(s: string, p: nat, q: nat)
    requires p <= q < |s|
    requires forall k :: p <= k < q ==> IsSpace(s[k])
    requires !IsSpace(s[q])
    ensures RestAfter(s, p) == Some(s[q..])
  {
    WsOver(s, p, q);
  }

  lemma {:induction false} FirstColonAt(s: string, i: nat, j: nat)
    requires i <= j <= |s| && ColonAfter(s, j)
    requires forall e :: i <= e < j ==> !ColonAfter(s, e)
    ensures FirstColon(s, i) == Some(j)
    decreases j - i
  {
    if i < j {
      FirstColonAt(s, i + 1, j);
    }
  }

  /** No colon can follow a stretch of text without one that ends in a
      character other than white space. */
  lemma NoColonBefore(s: string, i: nat, j: nat)
    requires i < j <= |s| && !IsSpace(s[j - 1])
    requires forall k :: i <= k < j ==> s[k] != ':'
    ensures forall e :: i <= e < j ==> !ColonAfter(s, e)
  {
    forall e | i <= e < j
      ensures !ColonAfter(s, e)
    {
      WsBelow(s, e, j - 1);
    }
  }

  /** `\s*:\s*(.+)` right at a colon followed by white space and a stripped
      text. */
  lemma ColonAt(s: string, j: nat, q: nat)
    requires j < q < |s| && s[j] == ':'
    requires forall k :: j < k < q ==> IsSpace(s[k])
    requires !IsSpace(s[q])
    ensures ColonAfter(s, j) && ColonTail(s, j) == s[q..]
  {
    WsOver(s, j, j);
    RestAt(s, j + 1, q);
  }

  /** The lazy head `\s+(.+?)\s*:` over one run of white space followed by a
      group `s[a..j]` without a colon, ending in a character other than white
      space, and a colon at `j`. */
  lemma LazyHeadAt(s: string, p: nat, a: nat, j: nat)
    requires p < a < j < |s|
    requires forall k :: p <= k < a ==> IsSpace(s[k])
    requires !IsSpace(s[a]) && !IsSpace(s[j - 1])
    requires forall k :: a <= k < j ==> s[k] != ':'
    requires ColonAfter(s, j)
    ensures LazyHead(s, p) == Some(Span(a, j))
  {
    WsOver(s, p, a);
    if a + 1 < j {
      NoColonBefore(s, a + 1, j);
    }
    FirstColonAt(s, a + 1, j);
  }

  predicate IsWord(w: string) {
    w != [] && forall k :: 0 <= k < |w| ==> IsWordChar(w[k])
  }

  /** The signature regular expression, given where each of its pieces stops. */
  lemma SignatureSteps(s: string, p: nat, b: nat, c: nat)
    requires p + 1 < b < c && c + 3 < |s|
    requires IsSpace(s[p]) && Ws(s, p) == p + 1 && WordRun(s, p + 1) == b - (p + 1) && Ws(s, b) == b
    requires s[b] == '(' && FindFrom(s, ')', b + 1) == c && Ws(s, c + 1) == c + 1 && s[c + 1] == ':'
    requires RestAfter(s, c + 2) == Some(s[c + 3..])
    ensures SignatureAt(s, p) == Some(Signature(s[p + 1..b], s[b + 1..c], s[c + 3..]))
  {
  }

  /** The signature regular expression over a signature laid out as
      `␣name(params):␣body` from `p` on. */
  lemma SignatureLayout(s: string, p: nat, b: nat, c: nat)
    requires p + 1 < b < c && c + 3 < |s|
    requires IsSpace(s[p]) && IsWord(s[p + 1..b])
    requires s[b] == '(' && s[c] == ')' && ')' !in s[b + 1..c]
    requires s[c + 1] == ':' && s[c + 2] == ' ' && !IsSpace(s[c + 3])
    ensures SignatureAt(s, p) == Some(Signature(s[p + 1..b], s[b + 1..c], s[c + 3..]))
  {
    assert forall k :: p < k < b ==> s[k] == s[p + 1..b][k - p - 1];
    assert forall k :: b < k < c ==> s[k] == s[b + 1..c][k - b - 1];
    WsOver(s, p, p + 1);
    WordRunOver(s, p + 1, b);
    WsOver(s, b, b);
    FindFromAt(s, ')', b + 1, c);
    WsOver(s, c + 1, c + 1);
    RestAt(s, c + 2, c + 3);
    SignatureSteps(s, p, b, c);
  }

  /** `s.find(c, i)` finds the first `c` from `i`. */
  lemma FindFromAt(s: string, ch: char, i: nat, j: nat)
    requires i <= j < |s| && s[j] == ch && forall k :: i <= k < j ==> s[k] != ch
    ensures FindFrom(s, ch, i) == j
  {
  }

  /** Where the parts of `pre + name(params): body` sit, when `pre` ends in
      a space. */
  lemma SignatureText(s: string, pre: string, name: string, params: string, body: string, p: nat, b: nat, c: nat)
    requires |pre| >= 1 && pre[|pre| - 1] == ' ' && s == pre + name + "(" + params + "): " + body
    requires p + 1 == |pre| && b == p + 1 + |name| && c == b + 1 + |params|
    ensures c + 3 + |body| == |s|
    ensures s[p] == ' ' && s[p + 1..b] == name && s[b] == '('
    ensures s[b + 1..c] == params && s[c] == ')' && s[c + 1] == ':' && s[c + 2] == ' '
    ensures s[c + 3..] == body && s[..p + 1] == pre
  {
    var u2 := pre + name;
    var u3 := u2 + "(";
    var u4 := u3 + params;
    var u5 := u4 + "): ";
    assert s == u5 + body;
    assert s[..|u5|] == u5 && s[|u5|..] == body;
    assert u5[..|u4|] == u4;
    assert u4[..|u3|] == u3 && u4[|u3|..] == params;
    assert u3[..|u2|] == u2;
    assert u2[|pre|..] == name && u2[..|pre|] == pre;
    assert s[..p + 1] == u2[..|pre|];
    assert s[p + 1..b] == u2[|pre|..];
    assert s[b + 1..c] == u4[|u3|..];
    assert s[p] == u2[p];
    assert s[b] == u3[|u2|];
    assert s[c] == u5[|u4|];
    assert s[c + 1] == u5[|u4| + 1];
    assert s[c + 2] == u5[|u4| + 2];
  }

  /** The signature of `pre + name(params): body` as the regular expression
      sees it, after the keyword that `pre` ends with and its space. */
  lemma SignatureOf(s: string, pre: string, name: string, params: string, body: string)
    requires |pre| >= 1 && pre[|pre| - 1] == ' '
    requires IsWord(name) && ')' !in params && body != [] && !IsSpace(body[0])
    requires s == pre + name + "(" + params + "): " + body
    ensures SignatureAt(s, |pre| - 1) == Some(Signature(name, params, body))
  {
    var p := |pre| - 1;
    var b := p + 1 + |name|;
    var c := b + 1 + |params|;
    SignatureText(s, pre, name, params, body, p, b, c);
    SignatureLayout(s, p, b, c);
  }

  /** A text that begins with `w` starts with it in the sense of `TextAt`. */
  lemma KeywordOf(s: string, w: string)
    requires |w| <= |s| && s[..|w|] == w
    ensures TextAt(s, 0, w)
  {
    assert forall k :: 0 <= k < |w| ==> s[k] == s[..|w|][k];
  }

  /** A line ending in a stripped body is stripped when its first character is
      not white space. */
  lemma StrippedLine(s: string, q: nat)
    requires q < |s| && IsStripped(s[q..]) && s[q..] != [] && !IsSpace(s[0])
    ensures Strip(s) == s
  {
    assert s[|s| - 1] == s[q..][|s| - q - 1];
  }

  // ---------------------------------------------------------------------------
  // One-line definitions

  /** How the signature regular expression and the keyword tests see a line
      `pre + name(params): body`. */
  lemma DefinitionText(line: string, pre: string, name: string, params: string, body: string)
    requires |pre| >= 1 && pre[|pre| - 1] == ' ' && !IsSpace(pre[0])
    requires IsWord(name) && ')' !in params && body != [] && IsStripped(body)
    requires line == pre + name + "(" + params + "): " + body
    ensures line != [] && IsStripped(line) && TextAt(line, 0, pre)
    ensures SignatureAt(line, |pre| - 1) == Some(Signature(name, params, body))
  {
    var p := |pre| - 1;
    var b := p + 1 + |name|;
    var c := b + 1 + |params|;
    SignatureText(line, pre, name, params, body, p, b, c);
    SignatureOf(line, pre, name, params, body);
    KeywordOf(line, pre);
    assert line[0] == line[..p + 1][0];
    StrippedLine(line, c + 3);
  }

  /** What `ParseLine` makes of a stripped line holding a one-line
      definition with signature `sig`: the body is parsed as a line of its own
      and its error, if any, is the line's. */
  function DefinitionOf(r: LineResult, sig: Signature, kind: DefKind): LineResult {
    match r
    case Err(err) => Err(err)
    case Ok(node) =>
      match kind
      case DefMacro => Ok(Some(MacroDef(sig.name, Params(sig.params), Body(node))))
      case DefAsync => Ok(Some(FunctionDef(sig.name, Params(sig.params), Body(node), true)))
      case DefPlain => Ok(Some(FunctionDef(sig.name, Params(sig.params), Body(node), false)))
  }

  lemma DefinitionFromStatement(l: string, sig: Signature, kind: DefKind)
    requires l != [] && IsStripped(l) && |sig.body| < |l|
    requires ParseStatement(l) == ParseDefinition(l, sig, kind)
    ensures ParseLine(l) == DefinitionOf(ParseLine(sig.body), sig, kind)
  {
  }

  lemma DefAt(l: string, sig: Signature)
    requires l != [] && IsStripped(l) && TextAt(l, 0, "def ") && SignatureAt(l, 3) == Some(sig)
    ensures ParseLine(l) == DefinitionOf(ParseLine(sig.body), sig, DefPlain)
  {
    DispatchDef(l);
    DefinitionFromStatement(l, sig, DefPlain);
  }

  lemma DispatchDef(l: string)
    requires l != [] && IsStripped(l) && TextAt(l, 0, "def ") && SignatureAt(l, 3).Some?
    ensures ParseStatement(l) == ParseDefinition(l, SignatureAt(l, 3).value, DefPlain)
  {
    TextAtChar(l, 0, "def ", 0);
    NotKeyword(l, "say ");
    NotKeyword(l, "print ");
    NotKeyword(l, "let ");
    NotKeyword(l, "macro ");
    NotKeyword(l, "@");
    NotKeyword(l, "async def ");
  }

  lemma AsyncDefAt(l: string, sig: Signature)
    requires l != [] && IsStripped(l) && TextAt(l, 0, "async def ") && SignatureAt(l, 9) == Some(sig)
    ensures ParseLine(l) == DefinitionOf(ParseLine(sig.body), sig, DefAsync)
  {
    DispatchAsyncDef(l);
    DefinitionFromStatement(l, sig, DefAsync);
  }

  lemma DispatchAsyncDef(l: string)
    requires l != [] && IsStripped(l) && TextAt(l, 0, "async def ") && SignatureAt(l, 9).Some?
    ensures ParseStatement(l) == ParseDefinition(l, SignatureAt(l, 9).value, DefAsync)
  {
    TextAtChar(l, 0, "async def ", 0);
    NotKeyword(l, "say ");
    NotKeyword(l, "print ");
    NotKeyword(l, "let ");
    NotKeyword(l, "macro ");
    NotKeyword(l, "@");
  }

  lemma MacroAt(l: string, sig: Signature)
    requires l != [] && IsStripped(l) && TextAt(l, 0, "macro ") && SignatureAt(l, 5) == Some(sig)
    ensures ParseLine(l) == DefinitionOf(ParseLine(sig.body), sig, DefMacro)
  {
    DispatchMacro(l);
    DefinitionFromStatement(l, sig, DefMacro);
  }

  lemma DispatchMacro(l: string)
    requires l != [] && IsStripped(l) && TextAt(l, 0, "macro ") && SignatureAt(l, 5).Some?
    ensures ParseStatement(l) == ParseDefinition(l, SignatureAt(l, 5).value, DefMacro)
  {
    TextAtChar(l, 0, "macro ", 0);
    NotKeyword(l, "say ");
    NotKeyword(l, "print ");
    NotKeyword(l, "let ");
  }

  /** `def name(params): body` is a function definition whose `is_async` is
      false, with the parameters split at commas and the body parsed as a
      line of its own. */
  lemma DefLine(name: string, params: string, body: string)
    requires IsWord(name) && ')' !in params && body != [] && IsStripped(body)
    ensures ParseLine("def " + name + "(" + params + "): " + body) ==
      match ParseLine(body)
      case Err(err) => Err(err)
      case Ok(node) => Ok(Some(FunctionDef(name, Params(params), Body(node), false)))
  {
    var line := "def " + name + "(" + params + "): " + body;
    DefinitionText(line, "def ", name, params, body);
    DefAt(line, Signature(name, params, body));
  }

  /** `async def name(params): body` is the same definition with `is_async`
      set. */
  lemma AsyncDefLine(name: string, params: string, body: string)
    requires IsWord(name) && ')' !in params && body != [] && IsStripped(body)
    ensures ParseLine("async def " + name + "(" + params + "): " + body) ==
      match ParseLine(body)
      case Err(err) => Err(err)
      case Ok(node) => Ok(Some(FunctionDef(name, Params(params), Body(node), true)))
  {
    var line := "async def " + name + "(" + params + "): " + body;
    DefinitionText(line, "async def ", name, params, body);
    AsyncDefAt(line, Signature(name, params, body));
  }

  /** `macro name(params): body` defines a macro with that body. */
  lemma MacroLine(name: string, params: string, body: string)
    requires IsWord(name) && ')' !in params && body != [] && IsStripped(body)
    ensures ParseLine("macro " + name + "(" + params + "): " + body) ==
      match ParseLine(body)
      case Err(err) => Err(err)
      case Ok(node) => Ok(Some(MacroDef(name, Params(params), Body(node))))
  {
    var line := "macro " + name + "(" + params + "): " + body;
    DefinitionText(line, "macro ", name, params, body);
    MacroAt(line, Signature(name, params, body));
  }

  // ---------------------------------------------------------------------------
  // One-line `if`

  /** `(?:\s+else\s*:\s*(.+))` at a single space followed by `else:`, one
      more space and a stripped text. */
  lemma ElseGroupAt(s: string, f: nat)
    requires f + 7 < |s| && s[f] == ' ' && s[f + 5] == ':' && s[f + 6] == ' ' && !IsSpace(s[f + 7])
    requires s[f + 1] == 'e' && s[f + 2] == 'l' && s[f + 3] == 's' && s[f + 4] == 'e'
    ensures ElseGroup(s, f) == Some(s[f + 7..])
  {
    WsOver(s, f, f + 1);
    assert TextAt(s, f + 1, "else");
    WsOver(s, f + 5, f + 5);
    RestAt(s, f + 6, f + 7);
  }

  /** No `else` group can start inside a stretch without a colon that ends in
      a character other than white space and is followed by ` e`. */
  lemma NoElseBefore(s: string, lo: nat, f: nat)
    requires lo < f && f + 1 < |s| && s[f] == ' ' && s[f + 1] == 'e' && !IsSpace(s[f - 1])
    requires forall k :: lo <= k < f ==> s[k] != ':'
    ensures forall e :: lo <= e < f ==> ElseGroup(s, e).None?
  {
    forall e | lo <= e < f
      ensures ElseGroup(s, e).None?
    {
      if e < |s| && IsSpace(s[e]) {
        WsBelow(s, e, f - 1);
        var g := Ws(s, e);
        if TextAt(s, g, "else") {
          if g + 4 <= f {
            var h := Ws(s, g + 4);
            WsSkipsSpace(s, g + 4);
            if h < f {
              assert s[h] != ':';
            } else {
              WsBelow(s, g + 4, f + 1);
            }
          } else {
            TextAtChar(s, g, "else", f - g);
          }
        }
      }
    }
  }

  lemma {:induction false} ThenEndAt(s: string, i: nat, f: nat)
    requires i <= f < |s| && ElseGroup(s, f).Some?
    requires forall e :: i <= e < f ==> ElseGroup(s, e).None?
    ensures ThenEnd(s, i) == f
    decreases f - i
  {
    if i < f {
      ThenEndAt(s, i + 1, f);
    }
  }

  /** Where the parts of `if c: s else: t` sit. */
  lemma IfElseText(line: string, c: string, s: string, t: string, j: nat, f: nat)
    requires line == "if " + c + ": " + s + " else: " + t
    requires j == 3 + |c| && f == j + 2 + |s|
    ensures f + 7 + |t| == |line| && line[..3] == "if " && line[3..j] == c
    ensures line[j] == ':' && line[j + 1] == ' ' && line[j + 2..f] == s
    ensures line[f] == ' ' && line[f + 1] == 'e' && line[f + 2] == 'l' && line[f + 3] == 's' && line[f + 4] == 'e'
    ensures line[f + 5] == ':' && line[f + 6] == ' ' && line[f + 7..] == t
  {
    var u1 := "if " + c;
    var u2 := u1 + ": ";
    var u3 := u2 + s;
    var u4 := u3 + " else: ";
    assert line == u4 + t;
    assert line[..|u4|] == u4 && line[|u4|..] == t;
    assert u4[..|u3|] == u3;
    assert u3[..|u2|] == u2 && u3[|u2|..] == s;
    assert u2[..|u1|] == u1;
    assert u1[..3] == "if " && u1[3..] == c;
    assert line[..3] == u1[..3];
    assert line[3..j] == u1[3..];
    assert line[j + 2..f] == u3[|u2|..];
    assert line[j] == u2[j] && line[j + 1] == u2[j + 1];
    assert line[f] == u4[f] && line[f + 1] == u4[f + 1] && line[f + 2] == u4[f + 2];
    assert line[f + 3] == u4[f + 3] && line[f + 4] == u4[f + 4] && line[f + 5] == u4[f + 5];
    assert line[f + 6] == u4[f + 6];
  }

  /** The `if` regular expression over `if c: s else: t` laid out with the
      condition at `3..j` and the `then` statement at `j + 2..f`. */
  lemma IfElseLayout(l: string, j: nat, f: nat)
    requires 3 < j && j + 2 < f && f + 7 < |l|
    requires l[2] == ' ' && !IsSpace(l[3]) && !IsSpace(l[j - 1]) && ':' !in l[3..j]
    requires l[j] == ':' && l[j + 1] == ' ' && !IsSpace(l[j + 2]) && !IsSpace(l[f - 1]) && ':' !in l[j + 2..f]
    requires l[f] == ' ' && l[f + 1] == 'e' && l[f + 2] == 'l' && l[f + 3] == 's' && l[f + 4] == 'e'
    requires l[f + 5] == ':' && l[f + 6] == ' ' && !IsSpace(l[f + 7])
    ensures LazyHead(l, 2) == Some(Span(3, j)) && Ws(l, j) == j
    ensures ThenElse(l, j + 1) == Branches(l[j + 2..f], Some(l[f + 7..]))
  {
    IfHeadAt(l, j);
    ThenElseAt(l, j, f);
  }

  /** The condition of `if c: ...` sits at `3..j`. */
  lemma IfHeadAt(l: string, j: nat)
    requires 3 < j && j + 2 < |l|
    requires l[2] == ' ' && !IsSpace(l[3]) && !IsSpace(l[j - 1]) && ':' !in l[3..j]
    requires l[j] == ':' && l[j + 1] == ' ' && !IsSpace(l[j + 2])
    ensures LazyHead(l, 2) == Some(Span(3, j)) && Ws(l, j) == j
  {
    NoColonIn(l, 3, j);
    WsOver(l, j, j);
    ColonAt(l, j, j + 2);
    LazyHeadAt(l, 2, 3, j);
  }

  /** After the colon at `j`, the `then` text runs to the ` else:` at `f`. */
  lemma ThenElseAt(l: string, j: nat, f: nat)
    requires j + 2 < f && f + 7 < |l|
    requires l[j + 1] == ' ' && !IsSpace(l[j + 2]) && !IsSpace(l[f - 1]) && ':' !in l[j + 2..f]
    requires l[f] == ' ' && l[f + 1] == 'e' && l[f + 2] == 'l' && l[f + 3] == 's' && l[f + 4] == 'e'
    requires l[f + 5] == ':' && l[f + 6] == ' ' && !IsSpace(l[f + 7])
    ensures ThenElse(l, j + 1) == Branches(l[j + 2..f], Some(l[f + 7..]))
  {
    NoColonIn(l, j + 2, f);
    WsOver(l, j + 1, j + 2);
    ElseGroupAt(l, f);
    if j + 3 < f {
      NoElseBefore(l, j + 3, f);
    }
    ThenEndAt(l, j + 3, f);
  }

  /** The preconditions of `IfAt` for the line `if c: s else: t`. */
  lemma IfElseShape(line: string, c: string, s: string, t: string, j: nat, f: nat)
    requires c != [] && IsStripped(c) && ':' !in c
    requires s != [] && IsStripped(s) && ':' !in s
    requires t != [] && IsStripped(t)
    requires line == "if " + c + ": " + s + " else: " + t
    requires j == 3 + |c| && f == j + 2 + |s|
    ensures line != [] && IsStripped(line) && TextAt(line, 0, "if ")
    ensures 3 < j && j + 2 < f && f + 7 < |line|
    ensures line[2] == ' ' && !IsSpace(line[3]) && !IsSpace(line[j - 1]) && ':' !in line[3..j]
    ensures line[j] == ':' && line[j + 1] == ' ' && !IsSpace(line[j + 2]) && !IsSpace(line[f - 1]) && ':' !in line[j + 2..f]
    ensures line[f] == ' ' && line[f + 1] == 'e' && line[f + 2] == 'l' && line[f + 3] == 's' && line[f + 4] == 'e'
    ensures line[f + 5] == ':' && line[f + 6] == ' ' && !IsSpace(line[f + 7])
    ensures line[3..j] == c && line[j + 2..f] == s && line[f + 7..] == t
  {
    IfElseText(line, c, s, t, j, f);
    assert line[3] == c[0] && line[j - 1] == c[|c| - 1];
    assert line[j + 2] == s[0] && line[f - 1] == s[|s| - 1];
    assert line[f + 7] == t[0];
    assert line[2] == line[..3][2];
    KeywordOf(line, "if ");
    StrippedLine(line, f + 7);
  }

  /** What `ParseIf` gives once its parts are known. */
  function IfOf(cond: Result<Expr, ParseError>, thenResult: LineResult, elseResult: LineResult): LineResult {
    match cond
    case Err(err) => Err(err)
    case Ok(c) =>
      match thenResult
      case Err(err) => Err(err)
      case Ok(thenNode) =>
        match elseResult
        case Err(err) => Err(err)
        case Ok(elseNode) =>
          Ok(Some(If(c, Body(thenNode), if elseNode.Some? then ElseBlock([elseNode.value]) else NoElse)))
  }

  lemma DispatchIf(l: string)
    requires l != [] && IsStripped(l) && TextAt(l, 0, "if ") && LazyHead(l, 2).Some?
    ensures ParseStatement(l) == ParseIf(l, LazyHead(l, 2).value)
  {
    TextAtChar(l, 0, "if ", 0);
    NotKeyword(l, "say ");
    NotKeyword(l, "print ");
    NotKeyword(l, "let ");
    NotKeyword(l, "macro ");
    NotKeyword(l, "@");
    NotKeyword(l, "async def ");
    NotKeyword(l, "def ");
    NotKeyword(l, "return ");
    NotKeyword(l, "match ");
  }

  lemma IfFromStatement(l: string, j: nat, thenSrc: string, elseSrc: string)
    requires l != [] && IsStripped(l) && 3 < j <= |l| && ColonAfter(l, j) && Ws(l, j) == j
    requires ThenElse(l, j + 1) == Branches(thenSrc, Some(elseSrc))
    requires ParseStatement(l) == ParseIf(l, Span(3, j))
    ensures ParseLine(l) == IfOf(ParseExpression(l[3..j]), ParseLine(thenSrc), ParseLine(elseSrc))
  {
    StatementLine(l);
    IfPresent(l, j, thenSrc, elseSrc);
  }

  lemma IfPresent(l: string, j: nat, thenSrc: string, elseSrc: string)
    requires 3 < j <= |l| && ColonAfter(l, j) && Ws(l, j) == j
    requires ThenElse(l, j + 1) == Branches(thenSrc, Some(elseSrc))
    ensures Present(ParseIf(l, Span(3, j))) == IfOf(ParseExpression(l[3..j]), ParseLine(thenSrc), ParseLine(elseSrc))
  {
    assert ParseIf(l, Span(3, j)) == IfNode(ParseExpression(l[3..j]), ParseLine(thenSrc), ParseLine(elseSrc));
    IfNodePresent(ParseExpression(l[3..j]), ParseLine(thenSrc), ParseLine(elseSrc));
  }

  lemma IfNodePresent(cond: Result<Expr, ParseError>, thenResult: LineResult, elseResult: LineResult)
    ensures Present(IfNode(cond, thenResult, elseResult)) == IfOf(cond, thenResult, elseResult)
  {
  }

  lemma IfAt(l: string, j: nat, f: nat)
    requires l != [] && IsStripped(l) && TextAt(l, 0, "if ")
    requires 3 < j && j + 2 < f && f + 7 < |l|
    requires l[2] == ' ' && !IsSpace(l[3]) && !IsSpace(l[j - 1]) && ':' !in l[3..j]
    requires l[j] == ':' && l[j + 1] == ' ' && !IsSpace(l[j + 2]) && !IsSpace(l[f - 1]) && ':' !in l[j + 2..f]
    requires l[f] == ' ' && l[f + 1] == 'e' && l[f + 2] == 'l' && l[f + 3] == 's' && l[f + 4] == 'e'
    requires l[f + 5] == ':' && l[f + 6] == ' ' && !IsSpace(l[f + 7])
    ensures ParseLine(l) == IfOf(ParseExpression(l[3..j]), ParseLine(l[j + 2..f]), ParseLine(l[f + 7..]))
  {
    IfElseLayout(l, j, f);
    DispatchIf(l);
    IfFromStatement(l, j, l[j + 2..f], l[f + 7..]);
  }

  /** `if c: s else: t` is an `If` whose condition is `c`, whose body is the
      statement `s` and whose `else` block holds the statement `t`; the first
      error among the three parts, in that order, is the line's. */
  lemma IfElseLine(c: string, s: string, t: string)
    requires c != [] && IsStripped(c) && ':' !in c
    requires s != [] && IsStripped(s) && ':' !in s
    requires t != [] && IsStripped(t)
    ensures ParseLine("if " + c + ": " + s + " else: " + t) ==
      match ParseExpression(c)
      case Err(err) => Err(err)
      case Ok(cond) =>
        match ParseLine(s)
        case Err(err) => Err(err)
        case Ok(thenNode) =>
          match ParseLine(t)
          case Err(err) => Err(err)
          case Ok(elseNode) => Ok(Some(If(cond, Body(thenNode), ElseBlock([elseNode.value]))))
  {
    var line := "if " + c + ": " + s + " else: " + t;
    var j := 3 + |c|;
    var f := j + 2 + |s|;
    IfElseShape(line, c, s, t, j, f);
    IfAt(line, j, f);
    NonBlankLine(t);
    IfElseOf(ParseLine(line), ParseExpression(c), ParseLine(s), ParseLine(t));
  }

  /** A line that is not blank never parses to nothing. */
  lemma NonBlankLine(t: string)
    requires t != [] && IsStripped(t)
    ensures ParseLine(t) != Ok(None)
  {
  }

  /** A stripped line opens with one of the forms `_parse_line` tests for by
      their first word (or `@`), in the source's order. */
  predicate OpensWithForm(l: string) {
    || TextAt(l, 0, "say ") || TextAt(l, 0, "print ") || TextAt(l, 0, "let ")
    || TextAt(l, 0, "macro ") || TextAt(l, 0, "@") || TextAt(l, 0, "async def ")
    || TextAt(l, 0, "def ") || TextAt(l, 0, "return ") || TextAt(l, 0, "match ")
    || TextAt(l, 0, "if ") || TextAt(l, 0, "while ") || TextAt(l, 0, "for ")
    || TextAt(l, 0, "agent ")
  }

  /** A non-blank line that opens with none of the forms, holds no `=` and is not
      a call reads as the name of its whole stripped text: it is never dropped. */
  lemma UnrecognisedLine(line: string)
    requires Strip(line) != [] && !OpensWithForm(Strip(line))
    requires '=' !in Strip(line)
    requires !(Strip(line)[|Strip(line)| - 1] == ')' && '(' in Strip(line))
    ensures ParseLine(line) == Ok(Some(ExprStmt(NameExpr(Strip(line)))))
  {
    UnrecognisedStatement(Strip(line));
  }

  lemma UnrecognisedStatement(l: string)
    requires l != [] && IsStripped(l) && !OpensWithForm(l)
    requires '=' !in l && !(l[|l| - 1] == ')' && '(' in l)
    ensures ParseStatement(l) == Ok(ExprStmt(NameExpr(l)))
  {
  }

  lemma IfElseOf(r: LineResult, cond: Result<Expr, ParseError>, thenResult: LineResult, elseResult: LineResult)
    requires r == IfOf(cond, thenResult, elseResult) && elseResult != Ok(None)
    ensures r ==
      match cond
      case Err(err) => Err(err)
      case Ok(c) =>
        match thenResult
        case Err(err) => Err(err)
        case Ok(thenNode) =>
          match elseResult
          case Err(err) => Err(err)
          case Ok(elseNode) => Ok(Some(If(c, Body(thenNode), ElseBlock([elseNode.value]))))
  {
  }

  // ---------------------------------------------------------------------------
  // `for` loops

  /** A stripped line parses to its statement, wrapped as present. */
  function Present(r: Result<Stmt, ParseError>): LineResult {
    match r
    case Err(err) => Err(err)
    case Ok(st) => Ok(Some(st))
  }

  /** A loop over `v` from the outcome of parsing its body and its end; the
      body's error, if any, is reported first. */
  function LoopOf(v: string, bodyResult: LineResult, end: Result<Expr, ParseError>): LineResult {
    match bodyResult
    case Err(err) => Err(err)
    case Ok(node) =>
      match end
      case Err(err) => Err(err)
      case Ok(x) => Ok(Some(ForLoop(v, x, Body(node))))
  }

  /** A call of `range` on parsed arguments. */
  function RangeCall(args: Result<seq<Expr>, ParseError>): Result<Expr, ParseError> {
    match args
    case Err(err) => Err(err)
    case Ok(xs) => Ok(FunctionCall("range", xs))
  }

  lemma StatementLine(l: string)
    requires l != [] && IsStripped(l)
    ensures ParseLine(l) == Present(ParseStatement(l))
  {
  }

  /** `for\s+(\w+)\s+in` over `for v in ` with `v` at `4..b`. */
  lemma ForHeadAt(l: string, b: nat)
    requires 4 < b && b + 3 < |l| && l[3] == ' ' && IsWord(l[4..b])
    requires l[b] == ' ' && l[b + 1] == 'i' && l[b + 2] == 'n' && l[b + 3] == ' '
    ensures ForHead(l) == Some((l[4..b], b + 3))
  {
    assert forall k :: 4 <= k < b ==> l[k] == l[4..b][k - 4];
    assert !IsWordChar(l[4..b][0]) ==> false;
    WsOver(l, 3, 4);
    WordRunOver(l, 4, b);
    WsOver(l, b, b + 1);
  }

  /** Where the parts of `for v in range(inner): body` sit. */
  lemma RangeText(line: string, v: string, inner: string, body: string, b: nat, f: nat)
    requires line == "for " + v + " in range(" + inner + "): " + body
    requires b == 4 + |v| && f == b + 10 + |inner|
    ensures f + 3 + |body| == |line| && line[..4] == "for " && line[4..b] == v
    ensures line[b] == ' ' && line[b + 1] == 'i' && line[b + 2] == 'n' && line[b + 3] == ' '
    ensures line[b + 4] == 'r' && line[b + 5] == 'a' && line[b + 6] == 'n' && line[b + 7] == 'g'
    ensures line[b + 8] == 'e' && line[b + 9] == '(' && line[b + 10..f] == inner
    ensures line[f] == ')' && line[f + 1] == ':' && line[f + 2] == ' ' && line[f + 3..] == body
  {
    var u1 := "for " + v;
    var u2 := u1 + " in range(";
    var u3 := u2 + inner;
    var u4 := u3 + "): ";
    assert line == u4 + body;
    assert line[..|u4|] == u4 && line[|u4|..] == body;
    assert u4[..|u3|] == u3;
    assert u3[..|u2|] == u2 && u3[|u2|..] == inner;
    assert u2[..|u1|] == u1;
    assert u1[..4] == "for " && u1[4..] == v;
    assert line[..4] == u1[..4];
    assert line[4..b] == u1[4..];
    assert line[b + 10..f] == u3[|u2|..];
    assert line[b] == u2[b] && line[b + 1] == u2[b + 1] && line[b + 2] == u2[b + 2];
    assert line[b + 3] == u2[b + 3] && line[b + 4] == u2[b + 4] && line[b + 5] == u2[b + 5];
    assert line[b + 6] == u2[b + 6] && line[b + 7] == u2[b + 7] && line[b + 8] == u2[b + 8];
    assert line[b + 9] == u2[b + 9];
    assert line[f] == u4[f] && line[f + 1] == u4[f + 1] && line[f + 2] == u4[f + 2];
  }

  /** The `range` regular expression over `for v in range(inner): body` with
      `v` at `4..b` and the closing parenthesis at `f`. */
  lemma RangeLayout(l: string, b: nat, f: nat)
    requires 4 < b && b + 10 <= f && f + 3 < |l| && l[3] == ' ' && IsWord(l[4..b])
    requires l[b] == ' ' && l[b + 1] == 'i' && l[b + 2] == 'n' && l[b + 3] == ' '
    requires l[b + 4] == 'r' && l[b + 5] == 'a' && l[b + 6] == 'n' && l[b + 7] == 'g'
    requires l[b + 8] == 'e' && l[b + 9] == '(' && ')' !in l[b + 10..f]
    requires l[f] == ')' && l[f + 1] == ':' && l[f + 2] == ' ' && !IsSpace(l[f + 3])
    ensures ForRange(l) == Some(RangeLoop(l[4..b], l[b + 10..f], l[f + 3..]))
  {
    ForHeadAt(l, b);
    assert forall k :: b + 10 <= k < f ==> l[k] == l[b + 10..f][k - b - 10];
    WsOver(l, b + 3, b + 4);
    assert TextAt(l, b + 4, "range(");
    FindFromAt(l, ')', b + 10, f);
    WsOver(l, f + 1, f + 1);
    RestAt(l, f + 2, f + 3);
    RangeSteps(l, b, f);
  }

  /** The `range` regular expression, given where each of its pieces stops. */
  lemma RangeSteps(l: string, b: nat, f: nat)
    requires 4 < b && b + 10 <= f && f + 3 < |l|
    requires ForHead(l) == Some((l[4..b], b + 3)) && IsSpace(l[b + 3]) && Ws(l, b + 3) == b + 4
    requires TextAt(l, b + 4, "range(") && FindFrom(l, ')', b + 10) == f
    requires Ws(l, f + 1) == f + 1 && l[f + 1] == ':' && RestAfter(l, f + 2) == Some(l[f + 3..])
    ensures ForRange(l) == Some(RangeLoop(l[4..b], l[b + 10..f], l[f + 3..]))
  {
  }

  /** The line `for v in range(inner): body` matches the `range` regular
      expression with those three groups. */
  lemma RangeShape(line: string, v: string, inner: string, body: string)
    requires IsWord(v) && ')' !in inner && body != [] && IsStripped(body)
    requires line == "for " + v + " in range(" + inner + "): " + body
    ensures line != [] && IsStripped(line) && TextAt(line, 0, "for ")
    ensures ForRange(line) == Some(RangeLoop(v, inner, body)) && |body| < |line|
  {
    var b, f := 4 + |v|, 14 + |v| + |inner|;
    RangeText(line, v, inner, body, b, f);
    assert line[f + 3] == body[0];
    assert line[3] == line[..4][3];
    KeywordOf(line, "for ");
    StrippedLine(line, f + 3);
    RangeLayout(line, b, f);
  }

  lemma DispatchRange(l: string)
    requires l != [] && IsStripped(l) && TextAt(l, 0, "for ") && ForRange(l).Some?
    ensures ParseStatement(l) == ParseRangeLoop(l, ForRange(l).value)
  {
    TextAtChar(l, 0, "for ", 0);
    NotKeyword(l, "say ");
    NotKeyword(l, "print ");
    NotKeyword(l, "let ");
    NotKeyword(l, "macro ");
    NotKeyword(l, "@");
    NotKeyword(l, "async def ");
    NotKeyword(l, "def ");
    NotKeyword(l, "return ");
    NotKeyword(l, "match ");
    NotKeyword(l, "if ");
    NotKeyword(l, "while ");
  }

  lemma RangeAt(l: string, m: RangeLoop)
    requires l != [] && IsStripped(l) && TextAt(l, 0, "for ") && ForRange(l) == Some(m)
    ensures ParseLine(l) == Present(ParseRangeLoop(l, m))
  {
    StatementLine(l);
    DispatchRange(l);
  }

  lemma RangeOneOf(l: string, m: RangeLoop)
    requires |m.body| < |l| && m.inner != [] && IsStripped(m.inner) && ',' !in m.inner
    ensures Present(ParseRangeLoop(l, m)) == LoopOf(m.loopVar, ParseLine(m.body), ParseExpression(m.inner))
  {
    assert Strip(m.inner) == m.inner;
    RangeOneWith(m.loopVar, m.inner, ParseLine(m.body));
  }

  lemma RangeOneWith(v: string, inner: string, b: LineResult)
    requires inner != [] && ',' !in inner
    ensures Present(RangeLoopWith(v, inner, b)) == LoopOf(v, b, ParseExpression(inner))
  {
  }

  lemma RangeCallWith(v: string, inner: string, b: LineResult)
    requires ',' in inner
    ensures Present(RangeLoopWith(v, inner, b)) == LoopOf(v, b, RangeCall(ParseExprs(NonBlank(Split(inner, ',')))))
  {
  }

  lemma RangeCallOf(l: string, m: RangeLoop)
    requires |m.body| < |l| && IsStripped(m.inner) && ',' in m.inner
    ensures Present(ParseRangeLoop(l, m)) ==
      LoopOf(m.loopVar, ParseLine(m.body), RangeCall(ParseExprs(NonBlank(Split(m.inner, ',')))))
  {
    assert Strip(m.inner) == m.inner;
    RangeCallWith(m.loopVar, m.inner, ParseLine(m.body));
  }

  /** `for v in range(e): body` with a single bound `e` loops up to `e`
      itself; the body is parsed before the bound. */
  lemma RangeOneLine(v: string, e: string, body: string)
    requires IsWord(v) && e != [] && IsStripped(e) && ')' !in e && ',' !in e
    requires body != [] && IsStripped(body)
    ensures ParseLine("for " + v + " in range(" + e + "): " + body) == LoopOf(v, ParseLine(body), ParseExpression(e))
  {
    var line := "for " + v + " in range(" + e + "): " + body;
    RangeShape(line, v, e, body);
    RangeOneOf(line, RangeLoop(v, e, body));
    RangeAt(line, RangeLoop(v, e, body));
  }

  /** `for v in range(a, b[, c]): body` loops over a call of `range` with the
      non-blank comma-separated arguments, in order. */
  lemma RangeCallLine(v: string, inner: string, body: string)
    requires IsWord(v) && IsStripped(inner) && ')' !in inner && ',' in inner
    requires body != [] && IsStripped(body)
    ensures ParseLine("for " + v + " in range(" + inner + "): " + body) ==
      LoopOf(v, ParseLine(body), RangeCall(ParseExprs(NonBlank(Split(inner, ',')))))
  {
    var line := "for " + v + " in range(" + inner + "): " + body;
    RangeShape(line, v, inner, body);
    RangeCallOf(line, RangeLoop(v, inner, body));
    RangeAt(line, RangeLoop(v, inner, body));
  }

  /** A loop over `v` from the outcome of parsing its iterable and then its body. */
  function IterOf(v: string, iterable: Result<Expr, ParseError>, bodyResult: LineResult): LineResult {
    match iterable
    case Err(err) => Err(err)
    case Ok(x) =>
      match bodyResult
      case Err(err) => Err(err)
      case Ok(node) => Ok(Some(ForLoop(v, x, Body(node))))
  }

  /** `range(start, end + 1)` from the outcomes of parsing `start` and `end`,
      in that order. */
  function InclusiveRange(start: Result<Expr, ParseError>, end: Result<Expr, ParseError>): Result<Expr, ParseError> {
    match start
    case Err(err) => Err(err)
    case Ok(a) =>
      match end
      case Err(err) => Err(err)
      case Ok(b) => Ok(FunctionCall("range", [a, BinaryOp("+", b, LiteralInt(1))]))
  }

  lemma {:induction false} DotDotFromAt(x: string, e: nat, k: nat)
    requires k + 3 <= |x| && 1 <= e <= k && TextAt(x, e, "..")
    requires forall i :: e + 1 < i <= k + 1 ==> x[i] != '.'
    ensures DotDotFrom(x, k) == Some(e)
    decreases k
  {
    if k > e {
      assert x[k + 1] != ".."[1];
      DotDotFromAt(x, e, k - 1);
    }
  }

  lemma {:induction false} DotDotFromNone(x: string, k: nat)
    requires k + 3 <= |x| && '.' !in x
    ensures DotDotFrom(x, k).None?
    decreases k
  {
    if k > 0 {
      assert x[k + 0] != "..."[0];
      DotDotFromNone(x, k - 1);
    }
  }

  /** `a..c` splits at its `..` when `c` holds no dot. */
  lemma DotDotOf(a: string, c: string)
    requires a != [] && IsStripped(a) && c != [] && IsStripped(c) && '.' !in c
    ensures DotDot(a + ".." + c) == Some((a, c))
  {
    var x := a + ".." + c;
    DotDotLayout(a, c, x, |a|);
    DotDotAt(x, |a|, a, c);
  }

  /** Where the pieces of `a..c` sit. */
  lemma DotDotLayout(a: string, c: string, x: string, e: nat)
    requires x == a + ".." + c && e == |a| && '.' !in c
    ensures |x| == e + 2 + |c| && x[..e] == a && x[e + 2..] == c && TextAt(x, e, "..")
    ensures forall i :: e + 1 < i < |x| ==> x[i] != '.'
  {
    forall i | e + 1 < i < |x|
      ensures x[i] != '.'
    {
      assert x[i] == c[i - e - 2];
    }
  }

  /** A text split by its last `..` into two stripped pieces. */
  lemma DotDotAt(x: string, e: nat, a: string, c: string)
    requires 1 <= e && |x| == e + 2 + |c| && c != []
    requires x[..e] == a && x[e + 2..] == c && TextAt(x, e, "..")
    requires forall i :: e + 1 < i < |x| ==> x[i] != '.'
    requires IsStripped(a) && IsStripped(c)
    ensures DotDot(x) == Some((a, c))
  {
    DotDotFromAt(x, e, |x| - 3);
    assert x[e + 2] == c[0];
    RestAt(x, e + 2, e + 2);
    DotDotSteps(x, e, a, c);
  }

  lemma DotDotSteps(x: string, e: nat, a: string, c: string)
    requires |x| >= 4 && e + 2 < |x| && DotDotFrom(x, |x| - 3) == Some(e)
    requires x[..e] == a && RestAfter(x, e + 2) == Some(c) && IsStripped(a) && IsStripped(c)
    ensures DotDot(x) == Some((a, c))
  {
    DotDotIs(x, e);
    SidesOf(x, e, a, c);
  }

  lemma DotDotIs(x: string, e: nat)
    requires |x| >= 4 && DotDotFrom(x, |x| - 3) == Some(e)
    ensures e + 2 < |x| && DotDot(x) == Some(DotDotSides(x, e))
  {
  }

  lemma SidesOf(x: string, e: nat, a: string, c: string)
    requires e + 2 < |x| && x[..e] == a && RestAfter(x, e + 2) == Some(c) && IsStripped(a) && IsStripped(c)
    ensures DotDotSides(x, e) == (a, c)
  {
    assert Strip(a) == a && Strip(c) == c;
  }

  /** A text without a dot has no `..` to split at. */
  lemma {:induction false} NoDotDot(x: string)
    requires '.' !in x
    ensures DotDot(x).None?
  {
    if |x| >= 4 {
      DotDotFromNone(x, |x| - 3);
      var r := DotDotFrom(x, |x| - 3);
      assert r == None;
    }
  }

  /** `range(` does not start at `e` when the text there does not start with
      it and is followed by a character that is not in it. */
  lemma NotRangeAt(l: string, e: nat, x: string)
    requires e + |x| < |l| && l[e..e + |x|] == x && !StartsWith(x, "range(")
    requires l[e + |x|] !in "range("
    ensures !TextAt(l, e, "range(")
  {
    if |x| >= 6 {
      assert x[..6] != "range(";
      var k :| 0 <= k < 6 && x[..6][k] != "range("[k];
      assert l[e + k] == l[e..e + |x|][k];
    } else {
      assert l[e + |x|] != "range("[|x|];
    }
  }

  /** Where the parts of `for v in x: body` sit. */
  lemma IterText(line: string, v: string, x: string, body: string, b: nat, j: nat)
    requires line == "for " + v + " in " + x + ": " + body
    requires b == 4 + |v| && j == b + 4 + |x|
    ensures j + 2 + |body| == |line| && line[..4] == "for " && line[4..b] == v
    ensures line[b] == ' ' && line[b + 1] == 'i' && line[b + 2] == 'n' && line[b + 3] == ' '
    ensures line[b + 4..j] == x && line[j] == ':' && line[j + 1] == ' ' && line[j + 2..] == body
  {
    var u1 := "for " + v;
    var u2 := u1 + " in ";
    var u3 := u2 + x;
    var u4 := u3 + ": ";
    assert line == u4 + body;
    assert line[..|u4|] == u4 && line[|u4|..] == body;
    assert u4[..|u3|] == u3;
    assert u3[..|u2|] == u2 && u3[|u2|..] == x;
    assert u2[..|u1|] == u1;
    assert u1[..4] == "for " && u1[4..] == v;
    assert line[..4] == u1[..4];
    assert line[4..b] == u1[4..];
    assert line[b + 4..j] == u3[|u2|..];
    assert line[b] == u2[b] && line[b + 1] == u2[b + 1] && line[b + 2] == u2[b + 2] && line[b + 3] == u2[b + 3];
    assert line[j] == u4[j] && line[j + 1] == u4[j + 1];
  }

  /** The shape of a line `for v in x: body` that the `range` form rejects and
      the general form accepts. */
  predicate IterLaidOut(l: string, b: nat, j: nat) {
    && l != [] && IsStripped(l) && TextAt(l, 0, "for ")
    && 4 < b && b + 4 < j && j + 2 < |l| && l[3] == ' ' && IsWord(l[4..b])
    && l[b] == ' ' && l[b + 1] == 'i' && l[b + 2] == 'n' && l[b + 3] == ' '
    && !IsSpace(l[b + 4]) && !IsSpace(l[j - 1]) && ':' !in l[b + 4..j] && !StartsWith(l[b + 4..j], "range(")
    && l[j] == ':' && l[j + 1] == ' ' && !IsSpace(l[j + 2])
  }

  lemma IterLayout(l: string, b: nat, j: nat)
    requires IterLaidOut(l, b, j)
    ensures ForRange(l).None? && ForIter(l) == Some(IterLoop(l[4..b], l[b + 4..j], l[j + 2..]))
  {
    ForHeadAt(l, b);
    IterTail(l, b, j);
    IterSteps(l, b, j);
  }

  /** The pieces of an iterating `for` line after its `in`. */
  lemma IterTail(l: string, b: nat, j: nat)
    requires IterLaidOut(l, b, j)
    ensures Ws(l, b + 3) == b + 4 && !TextAt(l, b + 4, "range(")
    ensures ColonAfter(l, j) && ColonTail(l, j) == l[j + 2..]
    ensures LazyHead(l, b + 3) == Some(Span(b + 4, j))
  {
    NoColonIn(l, b + 4, j);
    WsOver(l, b + 3, b + 4);
    NotRangeAt(l, b + 4, l[b + 4..j]);
    ColonAt(l, j, j + 2);
    LazyHeadAt(l, b + 3, b + 4, j);
  }

  lemma NoColonIn(l: string, a: nat, j: nat)
    requires a <= j <= |l| && ':' !in l[a..j]
    ensures forall k :: a <= k < j ==> l[k] != ':'
  {
    forall k | a <= k < j
      ensures l[k] != ':'
    {
      assert l[k] == l[a..j][k - a];
    }
  }

  /** The two `for` regular expressions, given where their pieces stop. */
  lemma IterSteps(l: string, b: nat, j: nat)
    requires 4 < b && b + 4 < j && j + 2 < |l|
    requires ForHead(l) == Some((l[4..b], b + 3)) && IsSpace(l[b + 3]) && Ws(l, b + 3) == b + 4
    requires !TextAt(l, b + 4, "range(") && LazyHead(l, b + 3) == Some(Span(b + 4, j))
    requires ColonTail(l, j) == l[j + 2..]
    ensures ForRange(l).None? && ForIter(l) == Some(IterLoop(l[4..b], l[b + 4..j], l[j + 2..]))
  {
  }

  lemma DispatchIter(l: string)
    requires l != [] && IsStripped(l) && TextAt(l, 0, "for ") && ForRange(l).None? && ForIter(l).Some?
    ensures ParseStatement(l) == ParseIterLoop(l, ForIter(l).value)
  {
    TextAtChar(l, 0, "for ", 0);
    NotKeyword(l, "say ");
    NotKeyword(l, "print ");
    NotKeyword(l, "let ");
    NotKeyword(l, "macro ");
    NotKeyword(l, "@");
    NotKeyword(l, "async def ");
    NotKeyword(l, "def ");
    NotKeyword(l, "return ");
    NotKeyword(l, "match ");
    NotKeyword(l, "if ");
    NotKeyword(l, "while ");
  }

  lemma IterAt(l: string, m: IterLoop)
    requires l != [] && IsStripped(l) && TextAt(l, 0, "for ") && ForRange(l).None? && ForIter(l) == Some(m)
    ensures ParseLine(l) == Present(ParseIterLoop(l, m))
  {
    StatementLine(l);
    DispatchIter(l);
  }

  lemma InclusiveOf(l: string, m: IterLoop, a: string, c: string)
    requires |m.body| < |l| && IsStripped(m.iterable) && DotDot(m.iterable) == Some((a, c))
    ensures Present(ParseIterLoop(l, m)) ==
      IterOf(m.loopVar, InclusiveRange(ParseExpression(a), ParseExpression(c)), ParseLine(m.body))
  {
    assert Strip(m.iterable) == m.iterable;
    InclusiveWith(m.loopVar, m.iterable, ParseLine(m.body), a, c);
  }

  lemma InclusiveWith(v: string, x: string, b: LineResult, a: string, c: string)
    requires DotDot(x) == Some((a, c))
    ensures Present(IterLoopWith(v, x, b)) == IterOf(v, InclusiveRange(ParseExpression(a), ParseExpression(c)), b)
  {
  }

  lemma PlainWith(v: string, x: string, b: LineResult)
    requires DotDot(x).None?
    ensures Present(IterLoopWith(v, x, b)) == IterOf(v, ParseExpression(x), b)
  {
  }

  lemma PlainIterOf(l: string, m: IterLoop)
    requires |m.body| < |l| && IsStripped(m.iterable) && DotDot(m.iterable).None?
    ensures Present(ParseIterLoop(l, m)) == IterOf(m.loopVar, ParseExpression(m.iterable), ParseLine(m.body))
  {
    assert Strip(m.iterable) == m.iterable;
    PlainWith(m.loopVar, m.iterable, ParseLine(m.body));
  }

  /** The line `for v in x: body` matches the second `for` regular
      expression, and not the `range` one, with those three groups. */
  lemma IterShape(line: string, v: string, x: string, body: string)
    requires IsWord(v) && x != [] && IsStripped(x) && ':' !in x && !StartsWith(x, "range(")
    requires body != [] && IsStripped(body)
    requires line == "for " + v + " in " + x + ": " + body
    ensures line != [] && IsStripped(line) && TextAt(line, 0, "for ") && |body| < |line|
    ensures ForRange(line).None? && ForIter(line) == Some(IterLoop(v, x, body))
  {
    var b := 4 + |v|;
    var j := b + 4 + |x|;
    IterText(line, v, x, body, b, j);
    assert line[b + 4] == x[0] && line[j - 1] == x[|x| - 1];
    assert line[j + 2] == body[0];
    assert line[3] == line[..4][3];
    KeywordOf(line, "for ");
    StrippedLine(line, j + 2);
    IterLayout(line, b, j);
  }

  /** `for v in a..c: body` loops over `range(a, c + 1)`; the two bounds are
      parsed before the body. */
  lemma InclusiveLine(v: string, a: string, c: string, body: string)
    requires IsWord(v) && a != [] && IsStripped(a) && c != [] && IsStripped(c)
    requires ':' !in a && ':' !in c && '.' !in c && !StartsWith(a + ".." + c, "range(")
    requires body != [] && IsStripped(body)
    ensures ParseLine("for " + v + " in " + (a + ".." + c) + ": " + body) ==
      IterOf(v, InclusiveRange(ParseExpression(a), ParseExpression(c)), ParseLine(body))
  {
    DotDotText(a, c);
    InclusiveLineOf(v, a + ".." + c, body, a, c);
  }

  lemma DotDotText(a: string, c: string)
    requires a != [] && IsStripped(a) && c != [] && IsStripped(c)
    requires ':' !in a && ':' !in c && '.' !in c
    ensures a + ".." + c != [] && IsStripped(a + ".." + c) && ':' !in a + ".." + c
    ensures DotDot(a + ".." + c) == Some((a, c))
  {
    var x := a + ".." + c;
    assert x[0] == a[0] && x[|x| - 1] == c[|c| - 1];
    assert ':' !in x by {
      assert forall k :: 0 <= k < |x| ==> x[k] == (if k < |a| then a[k] else if k < |a| + 2 then '.' else c[k - |a| - 2]);
    }
    DotDotOf(a, c);
  }

  lemma InclusiveLineOf(v: string, x: string, body: string, a: string, c: string)
    requires IsWord(v) && x != [] && IsStripped(x) && ':' !in x && !StartsWith(x, "range(")
    requires body != [] && IsStripped(body) && DotDot(x) == Some((a, c))
    ensures ParseLine("for " + v + " in " + x + ": " + body) ==
      IterOf(v, InclusiveRange(ParseExpression(a), ParseExpression(c)), ParseLine(body))
  {
    var line := "for " + v + " in " + x + ": " + body;
    IterShape(line, v, x, body);
    InclusiveOf(line, IterLoop(v, x, body), a, c);
    IterAt(line, IterLoop(v, x, body));
  }

  /** `for v in x: body` with any other iterable loops over `x` itself; the
      iterable is parsed before the body. */
  lemma IterLine(v: string, x: string, body: string)
    requires IsWord(v) && x != [] && IsStripped(x) && ':' !in x && '.' !in x && !StartsWith(x, "range(")
    requires body != [] && IsStripped(body)
    ensures ParseLine("for " + v + " in " + x + ": " + body) == IterOf(v, ParseExpression(x), ParseLine(body))
  {
    NoDotDot(x);
    PlainIterLineOf(v, x, body);
  }

  lemma PlainIterLineOf(v: string, x: string, body: string)
    requires IsWord(v) && x != [] && IsStripped(x) && ':' !in x && !StartsWith(x, "range(")
    requires body != [] && IsStripped(body) && DotDot(x).None?
    ensures ParseLine("for " + v + " in " + x + ": " + body) == IterOf(v, ParseExpression(x), ParseLine(body))
  {
    var line := "for " + v + " in " + x + ": " + body;
    IterShape(line, v, x, body);
    PlainIterOf(line, IterLoop(v, x, body));
    IterAt(line, IterLoop(v, x, body));
  }

  // ---------------------------------------------------------------------------
  // Patterns

  predicate Bracketed(t: string) {
    |t| >= 1 && t[0] == '[' && t[|t| - 1] == ']'
  }

  /** Which kind of pattern `_parse_pattern` makes of a text, in both
      directions: `_` is the wildcard, a run of digits an integer literal, a
      quoted text a string literal with its quotes dropped, a bracketed text a
      list pattern, and every other text a name pattern holding the text. */
  lemma PatternKinds(src: string)
    ensures var t := Strip(src); var r := ParsePattern(src);
      && (r.WildcardPattern? <==> t == "_")
      && (r.LiteralPattern? && r.lit.LiteralInt? <==> t != [] && AllDigits(t))
      && (r.LiteralPattern? && r.lit.LiteralInt? ==> r.lit.num == DigitsValue(t))
      && (r.LiteralPattern? && r.lit.LiteralString? <==> QuotedBy(t, '"') || QuotedBy(t, '\''))
      && (r.LiteralPattern? && r.lit.LiteralString? ==> r.lit.str == StripQuotes(t))
      && (r.ListPattern? <==> Bracketed(t))
      && (r.NamePattern? <==> t != "_" && !(t != [] && AllDigits(t)) && !QuotedBy(t, '"') && !QuotedBy(t, '\'') && !Bracketed(t))
      && (r.NamePattern? ==> r.name == t)
  {
    var t := Strip(src);
    if t != [] {
      assert t[0] == '"' || t[0] == '\'' || t[0] == '[' ==> !(AllDigits(t));
    }
    assert t == "_" ==> !Bracketed(t) && !QuotedBy(t, '"') && !QuotedBy(t, '\'');
  }

  /** `[]` and `[ ]` are the empty list pattern; a non-blank bracketed text
      has one element per comma-separated part, each stripped and parsed on
      its own. */
  lemma ListPatternItems(inner: string)
    ensures Strip(inner) == [] ==> ParsePattern("[" + inner + "]") == ListPattern([])
    ensures Strip(inner) != [] ==>
      var parts := Split(Strip(inner), ',');
      var r := ParsePattern("[" + inner + "]");
      r.ListPattern? && |r.items| == |parts| &&
      forall k :: 0 <= k < |parts| ==> r.items[k] == ParsePattern(Strip(parts[k]))
  {
    BracketText(inner);
    ListPatternAt("[" + inner + "]", inner);
  }

  lemma BracketText(inner: string)
    ensures var s := "[" + inner + "]"; |s| == |inner| + 2 && s[0] == '[' && s[|s| - 1] == ']' && s[1..|s| - 1] == inner
  {
    var s := "[" + inner + "]";
    assert s[1..|s| - 1] == inner;
  }

  lemma ListPatternAt(s: string, inner: string)
    requires |s| >= 2 && s[0] == '[' && s[|s| - 1] == ']' && s[1..|s| - 1] == inner
    ensures Strip(inner) == [] ==> ParsePattern(s) == ListPattern([])
    ensures Strip(inner) != [] ==>
      var parts := Split(Strip(inner), ',');
      var r := ParsePattern(s);
      r.ListPattern? && |r.items| == |parts| &&
      forall k :: 0 <= k < |parts| ==> r.items[k] == ParsePattern(Strip(parts[k]))
  {
    assert IsStripped(s);
    assert !IsDigit(s[0]);
    ListPatternSteps(s);
  }

  lemma ListPatternSteps(s: string)
    requires |s| >= 2 && s[0] == '[' && s[|s| - 1] == ']' && Strip(s) == s && !AllDigits(s)
    ensures var inner := Strip(s[1..|s| - 1]);
      ParsePattern(s) == if inner == [] then ListPattern([]) else ListPattern(PatternItems(inner))
  {
    assert ParsePattern(s) == PatternOf(s);
    assert s != "_" by { assert s[0] != "_"[0]; }
    assert !QuotedBy(s, '"') && !QuotedBy(s, '\'');
  }

  lemma StripTwice(s: string)
    ensures Strip(Strip(s)) == Strip(s)
  {
  }

  /** A quoted text is the string literal between the quotes. */
  lemma QuotedPattern(q: char, t: string)
    requires IsQuote(q)
    ensures ParsePattern([q] + t + [q]) == LiteralPattern(LiteralString(t))
  {
    QuotedText(q, t);
    QuotedPatternAt([q] + t + [q], t);
  }

  lemma QuotedText(q: char, t: string)
    ensures var s := [q] + t + [q]; |s| == |t| + 2 && s[0] == q && s[|s| - 1] == q && s[1..|s| - 1] == t
  {
    var s := [q] + t + [q];
    assert s[1..|s| - 1] == t;
  }

  lemma QuotedPatternAt(s: string, t: string)
    requires |s| >= 2 && IsQuote(s[0]) && s[|s| - 1] == s[0] && s[1..|s| - 1] == t
    ensures ParsePattern(s) == LiteralPattern(LiteralString(t))
  {
    QuotedShape(s);
    assert ParsePattern(s) == PatternOf(s);
  }

  lemma QuotedShape(s: string)
    requires |s| >= 2 && IsQuote(s[0]) && s[|s| - 1] == s[0]
    ensures Strip(s) == s && s != "_" && !AllDigits(s) && QuotedBy(s, s[0])
    ensures StripQuotes(s) == s[1..|s| - 1]
  {
    assert IsStripped(s);
    assert !IsDigit(s[0]);
  }
}
