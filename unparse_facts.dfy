/** The unparser against the fallback parser: `say` and `print` statements of
    plain string literals survive a trip through text and back, and the text
    of such a statement survives a trip through the parser and back. */
module UnparseFacts {
  import opened Wrappers
  import opened Text
  import opened Ast
  import opened ExprParser
  import opened ExprFacts
  import opened LineParser
  import opened LineFacts
  import opened Fallback
  import opened Printing
  import opened Unparse

  /** A string the parser reads back unchanged between double quotes. */
  predicate PlainText(t: string) { '"' !in t && NoLineBreak(t) }

  /** `say "t"` or `print "t"` with a plain text `t`. */
  predicate SimpleOutput(s: Stmt) {
    (s.Say? || s.Print?) && s.text.LiteralString? && PlainText(s.text.str)
  }

  /** The keyword the unparser writes for a simple output statement. */
  function Keyword(s: Stmt): string
    requires SimpleOutput(s)
  {
    if s.Say? then "say " else "print "
  }

  // ---------------------------------------------------------------------------
  // Text

  lemma SimpleLine(s: Stmt)
    requires SimpleOutput(s)
    ensures UnparseStmt(s, 0) == Keyword(s) + "\"" + s.text.str + "\""
  {
    QuotedPlain(s.text.str);
    assert Pad(0) == [];
  }

  /** Lines joined by line breaks, with a final break, split back into the same lines. */
  lemma {:induction false} SplitJoined(ls: seq<string>)
    requires ls != []
    requires forall k :: 0 <= k < |ls| ==> NoLineBreak(ls[k])
    ensures SplitLines(Join(ls, "\n") + "\n") == ls
  {
    if |ls| == 1 {
      SplitLinesCons(ls[0], []);
      assert ls[0] + "\n" + [] == ls[0] + "\n";
    } else {
      SplitJoined(ls[1..]);
      var rest := Join(ls[1..], "\n") + "\n";
      assert Join(ls, "\n") + "\n" == ls[0] + "\n" + rest;
      SplitLinesCons(ls[0], rest);
      assert ls == [ls[0]] + ls[1..];
    }
  }

  /** Lines that are stripped, not blank and not indented are their own non-blank stripped lines. */
  lemma {:induction false} AlreadyStripped(ls: seq<string>)
    requires forall k :: 0 <= k < |ls| ==> ls[k] != [] && IsStripped(ls[k])
    ensures NonBlankStripped(ls) == ls
  {
    if ls != [] {
      AlreadyStripped(ls[1..]);
      assert ls == [ls[0]] + ls[1..];
    }
  }

  /** Outcomes that each hold a statement gather into those statements. */
  lemma {:induction false} GatherPresent(outs: seq<LineResult>, ss: seq<Stmt>)
    requires |outs| == |ss|
    requires forall k :: 0 <= k < |ss| ==> outs[k] == Ok(Some(ss[k]))
    ensures Gather(outs) == Ok(ss)
  {
    if ss != [] {
      GatherPresent(outs[1..], ss[1..]);
      assert ss == [ss[0]] + ss[1..];
    }
  }

  // ---------------------------------------------------------------------------
  // Parsing one line

  lemma SayDispatch(l: string)
    requires l != [] && IsStripped(l) && TextAt(l, 0, "say ")
    ensures ParseStatement(l) == (match ParseExpression(l[4..]) case Err(e) => Err(e) case Ok(v) => Ok(Say(v)))
  {
  }

  lemma PrintDispatch(l: string)
    requires l != [] && IsStripped(l) && TextAt(l, 0, "print ")
    ensures ParseStatement(l) == (match ParseExpression(l[6..]) case Err(e) => Err(e) case Ok(v) => Ok(Print(v)))
  {
    TextAtChar(l, 0, "print ", 0);
    NotKeyword(l, "say ");
  }

  lemma SayLineParses(t: string)
    requires PlainText(t)
    ensures ParseLine("say " + "\"" + t + "\"") == Ok(Some(Say(LiteralString(t))))
  {
    var q := "\"" + t + "\"";
    var l := "say " + "\"" + t + "\"";
    assert IsStripped(l);
    StringExpression('"', t);
    assert l[4..] == q;
    SayDispatch(l);
    assert ParseStatement(l) == Ok(Say(LiteralString(t)));
    StatementLine(l);
  }

  lemma PrintLineParses(t: string)
    requires PlainText(t)
    ensures ParseLine("print " + "\"" + t + "\"") == Ok(Some(Print(LiteralString(t))))
  {
    var q := "\"" + t + "\"";
    var l := "print " + "\"" + t + "\"";
    assert IsStripped(l);
    StringExpression('"', t);
    assert l[6..] == q;
    PrintDispatch(l);
    assert ParseStatement(l) == Ok(Print(LiteralString(t)));
    StatementLine(l);
  }

  /** The line the unparser writes for a simple output statement parses back to it. */
  lemma SimpleLineParses(s: Stmt)
    requires SimpleOutput(s)
    ensures ParseLine(Keyword(s) + "\"" + s.text.str + "\"") == Ok(Some(s))
  {
    if s.Say? {
      SayLineParses(s.text.str);
    } else {
      PrintLineParses(s.text.str);
    }
  }

  // ---------------------------------------------------------------------------
  // Round trips

  /** `say`/`print` statements of plain string literals: unparsing a program
      of them and parsing the text with the fallback parser gives the program back. */
  lemma RoundTrip(ss: seq<Stmt>)
    requires forall k :: 0 <= k < |ss| ==> SimpleOutput(ss[k])
    ensures FallbackProgram(UnparseProgram(Program(ss))) == Ok(Program(ss))
  {
    var ls := Lines(ss, 0);
    forall k | 0 <= k < |ss|
      ensures ls[k] == Keyword(ss[k]) + "\"" + ss[k].text.str + "\""
      ensures ls[k] != [] && IsStripped(ls[k]) && NoLineBreak(ls[k]) && IndentLength(ls[k]) == 0
      ensures ParseLine(ls[k]) == Ok(Some(ss[k]))
    {
      SimpleLine(ss[k]);
      SimpleLineParses(ss[k]);
      LineShape(ss[k]);
    }
    var raw := SplitLines(UnparseProgram(Program(ss)));
    if ss == [] {
      assert UnparseProgram(Program(ss)) == "\n";
      SplitLinesCons([], []);
      assert raw == [[]];
      assert Logical(raw, 0) == [];
      assert Outcomes([]) == [];
    } else {
      SplitJoined(ls);
      assert raw == ls;
      FlatLogical(ls, 0);
      assert ls[0..] == ls;
      AlreadyStripped(ls);
      GatherPresent(Outcomes(ls), ss);
    }
  }

  lemma LineShape(s: Stmt)
    requires SimpleOutput(s)
    ensures var l := Keyword(s) + "\"" + s.text.str + "\"";
      l != [] && IsStripped(l) && NoLineBreak(l) && IndentLength(l) == 0
  {
    var t := s.text.str;
    var l := Keyword(s) + "\"" + t + "\"";
    forall k | 0 <= k < |l|
      ensures !IsLineBreak(l[k])
    {
      if |Keyword(s)| + 1 <= k < |l| - 1 {
        assert l[k] == t[k - |Keyword(s)| - 1];
      }
    }
  }

  /** The other direction for one statement: the line `say "t"` (or
      `print "t"`) parses to that statement, which unparses to the same line
      with a final line break. */
  lemma LineRoundTrip(s: Stmt)
    requires SimpleOutput(s)
    ensures var l := Keyword(s) + "\"" + s.text.str + "\"";
      FallbackProgram(l) == Ok(Program([s])) && UnparseProgram(Program([s])) == l + "\n"
  {
    SimpleLine(s);
    LineShape(s);
    assert Lines([s], 0) == [UnparseStmt(s, 0)];
    RoundTrip([s]);
    SameLines(UnparseStmt(s, 0));
  }

  /** A line without line breaks reads the same with or without a final one. */
  lemma SameLines(l: string)
    requires l != [] && NoLineBreak(l)
    ensures FallbackProgram(l) == FallbackProgram(l + "\n")
  {
    NoBreakNone(l);
    SplitLinesCons(l, []);
    assert l + "\n" + [] == l + "\n";
    assert SplitLines(l) == SplitLines(l + "\n");
    assert LogicalLines(l) == LogicalLines(l + "\n");
  }

  /** A text without line breaks has no first line break, and is one line. */
  lemma {:induction false} NoBreakNone(s: string)
    requires NoLineBreak(s)
    ensures FirstLineBreak(s).None?
    ensures s != [] ==> SplitLines(s) == [s]
  {
    if s != [] {
      NoBreakNone(s[1..]);
    }
  }

  // ---------------------------------------------------------------------------
  // What each statement kind is written as

  /** A function definition is written as `def`: the async flag is not printed. */
  lemma DefDropsAsync(name: string, params: seq<string>, body: seq<Stmt>, indent: nat)
    ensures UnparseStmt(FunctionDef(name, params, body, true), indent)
         == UnparseStmt(FunctionDef(name, params, body, false), indent)
    ensures StartsWith(UnparseStmt(FunctionDef(name, params, body, true), indent),
                       Pad(indent) + "def " + name + "(")
  {
    var t := UnparseStmt(FunctionDef(name, params, body, true), indent);
    var head := Pad(indent) + "def " + name + "(";
    assert t[..|head|] == head;
  }

  /** The end of a `for` loop: an integer `N` is written `range(N)`; any other
      end, a call of `range` among them, is written as it is. */
  lemma LoopEnds(end: Expr)
    ensures end.LiteralInt? ==> LoopSource(end) == "range(" + IntToString(end.num) + ")"
    ensures !end.LiteralInt? ==> LoopSource(end) == UnparseExpr(end)
  {
  }

  /** The statements the unparser has no form for. */
  predicate Unsupported(s: Stmt) {
    || s.While? || s.DoBlock? || s.AgentCall? || s.MacroDef? || s.MacroCall?
    || (s.ExprStmt? && !s.e.FunctionCall?)
  }

  /** A statement is written as `# unsupported` exactly when it has no form. */
  lemma UnsupportedIff(s: Stmt, indent: nat)
    ensures UnparseStmt(s, indent) == Pad(indent) + "# unsupported" <==> Unsupported(s)
  {
    var pad := Pad(indent);
    var u := pad + "# unsupported";
    var t := UnparseStmt(s, indent);
    assert u[|pad|] == '#' && u[|u| - 1] == 'd';
    if !Unsupported(s) {
      if s.ExprStmt? {
        var x := UnparseExpr(s.e);
        assert x[|x| - 1] == ')';
        assert t[|t| - 1] == ')';
      } else {
        assert t[|pad|] != '#' by {
          match s
          case Say(_) => assert t[|pad|] == 's';
          case Print(_) => assert t[|pad|] == 'p';
          case Assign(_, _) => assert t[|pad|] == 'l';
          case FunctionDef(_, _, _, _) => assert t[|pad|] == 'd';
          case Return(_) => assert t[|pad|] == 'r';
          case ForLoop(_, _, _) => assert t[|pad|] == 'f';
          case If(_, _, _) => assert t[|pad|] == 'i';
          case Match(_, _) => assert t[|pad|] == 'm';
        }
      }
    }
  }
}
