# MetaScript front end, modelled in Dafny

MetaScript is a small scripting language with a compiler written in Python.
This project models its front end and proves properties of the model:

- **the fallback parser** (`metascript/parser.py`):
  - the expression reader `_ExprParser`;
  - the one-line statement reader `_parse_line` and the pattern reader `_parse_pattern`;
  - the indentation-aware line joiner `_parse_fallback`.
- **the tree and its serialisation** (`metascript/ast.py`).
- **hygienic macro expansion** (`metascript/macros.py`).
- **the two code generators**: JavaScript (`metascript/transpiler_js.py`) and Python (`metascript/transpiler_py.py`).
- **the unparser** back to MetaScript (`metascript/unparse.py`).
- **the backend agent** (`metascript/agents/backend_agent.py`): it validates code before a run, plans its resources and routes messages to the tools.
- **the tools it reaches** (`metascript/agents/tools.py`): `compute_stats`, `simulate_run`, `get_plan`, `list_tools` and the dispatcher `call_tool`.

How the modules map onto the program:

| module | file | models |
|---|---|---|
| `Ast` | `ast.dfy` | the node classes as datatypes, `node_to_dict` |
| `ExprParser`, `ExprFacts` | `expr_parser.dfy`, `expr_facts.dfy` | `_ExprParser`: spec functions over a cursor position, the class `Cursor` whose methods are proved equal to them, and the facts about expressions |
| `LineParser`, `LineFacts` | `line_parser.dfy`, `line_facts.dfy` | `_strip_quotes`, `_parse_pattern`, `_parse_line`, with each regular expression written as a function that backtracks as Python's engine does |
| `Fallback` | `fallback.dfy` | `_parse_fallback` and `parse`, as methods with loops, proved against the functions `Logical` and `FallbackProgram` |
| `Macros`, `MacroExpander`, `MacroFacts` | `macros.dfy`, `macro_expander.dfy`, `macro_facts.dfy` | `macros.py`: the spec functions, the class `Expander` that holds the counter and the stack of macro environments, and the lemmas |
| `Printing`, `TranspileJs`, `TranspilePy`, `Unparse`, `UnparseFacts` | `printing.dfy`, `js.dfy`, `py.dfy`, `unparse.dfy`, `unparse_facts.dfy` | the three printers, with their shared expression printer |
| `BackendAgent`, `AgentTools`, `Json` | `backend.dfy`, `tools.dfy`, `json.dfy` | the agent and tools over a JSON value type with Python's truth values |
| `Text`, `Wrappers` | `text.dfy`, `wrappers.dfy` | the Python string methods the code relies on, and `Option`/`Result` |

A Python exception is an `Err` value:
- `ParseError` in the parsers;
- `ExpandError` (`UndefinedMacro`, `TooDeep`) in expansion;
- `Failure` in the agent.

## Model

| member | source | states |
|---|---|---|
| Ast.ExprToDict | metascript/ast.py:203-223 | every expression is a one-entry dictionary under its `node_to_dict` key: the class name, or List/String/Int/Name for the list, string, integer and name nodes; `None` falls through to `str`, giving the string "None" |
| Ast.PatternToDict | metascript/ast.py:195-202 | every pattern kind is filed under "Pattern" |
| Ast.StmtToDict | metascript/ast.py:171-222 | every statement is a one-entry dictionary under its class name |
| Ast.ElseToDict | metascript/ast.py:177-178 | the else branch is `null` exactly when it is missing or empty, otherwise its statements in order |
| Ast.CasesToDict | metascript/ast.py:191-192 | the cases of a `match` are written in case order, one entry per case |
| Ast.MatchCaseToDict | metascript/ast.py:193-194 | a lone `MatchCase` is filed under "MatchCase" with its pattern and body |
| Ast.ProgramToDict | metascript/ast.py:169-170 | a program is its statements' dictionaries, in order, under "Program" |
| Ast.ExprToDictInjective | metascript/ast.py:203-218 | distinct expressions serialise differently |
| Ast.PatternToDictInjective | metascript/ast.py:195-202 | distinct patterns serialise differently |
| Ast.StmtToDictInjective | metascript/ast.py:171-222 | two statements with equal serialisations are equal once empty else lists are dropped |
| Ast.CanonSameDict | metascript/ast.py:177-178 | the converse: dropping empty else lists never changes the serialisation |
| Ast.EmptyElseForgotten | metascript/ast.py:177-178 | an `if` with an empty else list and one with none are different trees with the same serialisation |
| Ast.IfOrelseField | metascript/ast.py:177-178 | the third field of an `If` is `orelse`: `null` when missing or empty, its statements otherwise |
| Ast.FunctionDefAsyncField | metascript/ast.py:183-184 | `is_async` is always serialised, and a definition is not async unless it says so |
| ExprParser.Ws | metascript/parser.py:161-163 | `consume_ws` never moves back and stays within the text |
| ExprParser.WsSkipsSpace | metascript/parser.py:161-163 | `consume_ws` skips exactly the white space before the next other character |
| ExprParser.DigitRun | metascript/parser.py:182-186 | `\d+` matches at a position exactly when a digit is there, and stays within the text |
| ExprParser.DigitRunDigits | metascript/parser.py:182-186 | `\d+` takes the whole run of digits and stops before the next non-digit |
| ExprParser.WordRun | metascript/parser.py:188-192 | `\w*` stays within the text |
| ExprParser.WordRunWords | metascript/parser.py:188-192 | `\w*` takes the whole run of word characters and stops before the next other character |
| ExprParser.AwaitAtSlice | metascript/parser.py:216 | the character-by-character test is the slice test `s[i:i+6] == 'await '` |
| ExprParser.ExprAt | metascript/parser.py:272-287 | `parse_expr` never moves the cursor back and ends within the text |
| ExprParser.ExprLoop | metascript/parser.py:274-286 | the `+`/`-` loop never moves the cursor back |
| ExprParser.TermAt | metascript/parser.py:255-270 | `parse_term` never moves the cursor back |
| ExprParser.TermLoop | metascript/parser.py:257-269 | the `*`/`/` loop never moves the cursor back |
| ExprParser.AtomAt | metascript/parser.py:213-253 | `parse_atom` never moves the cursor back |
| ExprParser.NameOrCallAt | metascript/parser.py:179-211 | `parse_name_or_call` never moves the cursor back |
| ExprParser.CallOrNameAt | metascript/parser.py:192-210 | after a name, the call-or-name decision never moves the cursor back |
| ExprParser.ArgsLoop | metascript/parser.py:196-208 | the argument loop never moves the cursor back |
| ExprParser.ListLoop | metascript/parser.py:232-245 | the list-element loop never moves the cursor back |
| ExprParser.ParseExpression | metascript/parser.py:153-156 | the result is the expression at the start of the stripped source, and it fails exactly when that reading fails; what it reads is stated by `ExprFacts.ParseWhole`, `BlankExpression`, `OuterSpaceIgnored`, `Precedence` and `StringExpression` |
| ExprParser.BlankReadsNone | metascript/parser.py:211-253 | on an empty text no number, name, string, list or bracket is found, and the expression is `None` at position 0 |
| ExprParser.Cursor.constructor | metascript/parser.py:154-156 | the parser holds the stripped text with its cursor at 0 |
| ExprParser.Cursor.Peek | metascript/parser.py:158-159 | `peek` is `None` exactly at the end, and otherwise the character under the cursor |
| ExprParser.Cursor.ConsumeWs | metascript/parser.py:161-163 | the loop leaves the cursor where `Ws` says |
| ExprParser.Cursor.ParseNameOrCall | metascript/parser.py:179-211 | the method's result and final cursor agree with `NameOrCallAt` |
| ExprParser.Cursor.ParseArgs | metascript/parser.py:193-209 | the argument loop's result and final cursor agree with `ArgsLoop` |
| ExprParser.Cursor.ParseListElements | metascript/parser.py:229-246 | the element loop's result and final cursor agree with `ListLoop` |
| ExprParser.Cursor.ParseAtom | metascript/parser.py:213-253 | the result and final cursor agree with `AtomAt` |
| ExprParser.Cursor.ParseTerm | metascript/parser.py:255-270 | the result and final cursor agree with `TermAt` |
| ExprParser.Cursor.ParseExpr | metascript/parser.py:272-287 | the result and final cursor agree with `ExprAt` |
| ExprParser.ParseSource | metascript/parser.py:153-156 | a fresh parser object reads the same expression as `ParseExpression` |
| ExprFacts.Precedence | metascript/parser.py:255-287 | over three numbers, `a o1 b o2 c` groups as ordinary arithmetic: `*` and `/` bind tighter than `+` and `-`, and each level groups to the left |
| ExprFacts.GroupedAt | metascript/parser.py:255-287 | three atoms joined by two operators give the tree arithmetic gives |
| ExprFacts.PlainAtom | metascript/parser.py:213-253 | an atom that starts with none of `await`, a quote, `[` or `(` is a number, a name or a call |
| ExprFacts.NumberAtom | metascript/parser.py:182-186 | a run of digits is read as its number |
| ExprFacts.TermLoopStep | metascript/parser.py:259-268 | `*` or `/` joins the tree so far, as the left operand, with the next atom |
| ExprFacts.ExprLoopStep | metascript/parser.py:276-285 | `+` or `-` joins the tree so far, as the left operand, with the next term |
| ExprFacts.TermLoopStops | metascript/parser.py:269 | the `*`/`/` loop stops where no such operator comes next |
| ExprFacts.ExprLoopStops | metascript/parser.py:286 | the `+`/`-` loop stops where no such operator comes next |
| ExprFacts.StringAtom | metascript/parser.py:220-228 | a quoted string is the raw text up to the next matching quote, without escape processing |
| ExprFacts.UnterminatedString | metascript/parser.py:223-225 | a quote without a closing partner is an error |
| ExprFacts.StringExpression | metascript/parser.py:220-228 | the whole text `"t"` reads as the string `t` |
| ExprFacts.BlankExpression | metascript/parser.py:153-156 | a source of white space only reads as `None` |
| ExprFacts.OuterSpaceIgnored | metascript/parser.py:154-155 | white space before and after a source never changes how it reads |
| ExprFacts.WholeAtom | metascript/parser.py:255-287 | an atom that fills the text is the whole expression |
| ExprFacts.ParseWhole | metascript/parser.py:153-156 | an expression that fills the stripped text is what the parser returns |
| ExprFacts.NothingAtEnd | metascript/parser.py:211 | at the end of the input an expression is `None` and consumes nothing |
| ExprFacts.ArgsNeverEnd | metascript/parser.py:196-208 | an argument list still open when the input runs out makes no progress (the loop as written repeats forever) |
| ExprFacts.ListNeverEnds | metascript/parser.py:232-245 | the same for a list literal |
| ExprFacts.ArgsEndWithParen | metascript/parser.py:196-208 | a call is only ever completed by a `)` |
| ExprFacts.ListEndsWithBracket | metascript/parser.py:232-245 | a list is only ever completed by a `]` |
| LineParser.StripQuotes | metascript/parser.py:290-291 | the first and last characters are dropped exactly when both are quote characters; otherwise the text is unchanged |
| LineParser.ParseLine | metascript/parser.py:312-315 | a line reads as nothing exactly when it is blank |
| LineFacts.NonBlankLine | metascript/parser.py:313-315 | a line that is not blank never reads as nothing |
| LineFacts.UnrecognisedLine | metascript/parser.py:486 | a non-blank line that opens with none of the statement forms, holds no `=` and is not a call reads as the name of its whole stripped text |
| LineFacts.DefLine | metascript/parser.py:366-375 | `def f(ps): body` is a function definition that is not async, with the parsed body; an error in the body is the line's error |
| LineFacts.AsyncDefLine | metascript/parser.py:355-364 | `async def f(ps): body` is the same definition, marked async |
| LineFacts.MacroLine | metascript/parser.py:334-343 | `macro m(ps): body` defines a macro with the parsed body |
| LineFacts.IfElseLine | metascript/parser.py:401-411 | `if c: s else: t` has condition `c`, body `s` and else branch `t`; the first error among the three parts is the line's error |
| LineFacts.RangeOneLine | metascript/parser.py:424-437 | `for v in range(e): body` loops up to the expression `e` itself |
| LineFacts.RangeCallLine | metascript/parser.py:430-434 | with commas inside `range(...)`, the loop end is a call of `range` on the non-blank parts |
| LineFacts.InclusiveLine | metascript/parser.py:444-453 | `for v in a..c: body` loops over `range(a, c + 1)` |
| LineFacts.IterLine | metascript/parser.py:454-456 | any other iterable is looped over as it is |
| LineFacts.PatternKinds | metascript/parser.py:294-309 | which kind of pattern a text gives, in both directions: `_`, digits, a quoted text, a bracketed text, or else a name |
| LineFacts.ListPatternItems | metascript/parser.py:302-308 | a bracketed pattern is empty when blank inside; otherwise one element per comma-separated part, each read as a pattern |
| LineFacts.QuotedPattern | metascript/parser.py:300-301 | a quoted text is the string literal between the quotes |
| Fallback.IndentLength | metascript/parser.py:507 | the indentation is the longest prefix of spaces and tabs |
| Fallback.BodyEnd | metascript/parser.py:505-512 | the scan for indented body lines stays within the lines and never moves back |
| Fallback.JoinLines | metascript/parser.py:493-519 | the joining loop produces the logical lines `Logical` defines |
| Fallback.BodyLines | metascript/parser.py:503-512 | the inner loop stops where `BodyEnd` says, having gathered the body lines with their leading white space removed (`lstrip`) |
| Fallback.ParseLines | metascript/parser.py:521-527 | the statement loop gives `ParseAll` of the logical lines |
| Fallback.ParseFallback | metascript/parser.py:489-527 | `_parse_fallback` computes `FallbackProgram` |
| Fallback.Parse | metascript/parser.py:530-540 | without Lark, `parse` is the fallback parser |
| Fallback.LogicalNonBlank | metascript/parser.py:496-519 | every logical line is non-blank and starts with a visible character, and there are never more logical lines than raw lines |
| Fallback.FlatLogical | metascript/parser.py:496-519 | text without indentation gives its non-blank lines, stripped, in order |
| Fallback.HeaderJoined | metascript/parser.py:502-517 | a header ending in `:` is joined with its indented body line, and a blank line ends the block |
| Fallback.BlankEndsBlock | metascript/parser.py:505-512 | a blank line right after a header ends the block before it starts |
| Fallback.GatherEach | metascript/parser.py:521-527 | with no blank lines, each statement of the program is the reading of its own line, in order |
| Fallback.GatherFails | metascript/parser.py:521-527 | the program fails exactly when some line fails |
| Fallback.FallbackStatements | metascript/parser.py:489-527 | one statement per logical line, in order, and an error exactly when some logical line is in error |
| MacroExpander.CollectLocalBindings | metascript/macros.py:87-119 | the recursive walk collects what `Collect` defines |
| MacroExpander.CollectAll | metascript/macros.py:245-247 | the loop over a macro body collects what `CollectBody` defines |
| MacroExpander.Expander.constructor | metascript/macros.py:206 | the counter starts at 0 and the stack holds one empty global environment |
| MacroExpander.Expander.MakeFresh | metascript/macros.py:82-84 | the counter moves up by one and the new name carries the new count; the stack is unchanged |
| MacroExpander.Expander.LookupMacro | metascript/macros.py:211-215 | the search gives what `Lookup` gives |
| MacroExpander.Expander.ExpandStmtList | metascript/macros.py:217-236 | the result and the counter agree with `ExpandBlock`; the stack is restored as it was |
| MacroExpander.Expander.ExpandStatement | metascript/macros.py:238-308 | the result and the counter agree with `ExpandNode`; the stack is unchanged |
| MacroExpander.Expander.ExpandMatchCases | metascript/macros.py:290-294 | the case loop agrees with `ExpandCases` |
| MacroExpander.Expander.ExpandCall | metascript/macros.py:240-273 | a macro call agrees with `ExpandNode` of the call |
| MacroExpander.Expander.ExpandEachStatement | metascript/macros.py:265-273 | the substitute-then-expand loop agrees with `ExpandEach` |
| MacroExpander.ExpandProgram | metascript/macros.py:198-313 | `expand_macros` computes `ExpandMacros` |
| MacroFacts.LookupInnermost | metascript/macros.py:211-215 | a name is found exactly when some frame defines it, and then the innermost definition wins |
| MacroFacts.LookupPushed | metascript/macros.py:217-221 | a pushed frame shadows outer definitions of its names and leaves the other names alone |
| MacroFacts.CallFailures | metascript/macros.py:240-243 | a call of an undefined macro fails with `UndefinedMacro`; a defined one with no depth left fails with `TooDeep` |
| MacroFacts.CallExpands | metascript/macros.py:244-273 | a found macro's body is renamed, has its parameters substituted and is expanded again |
| MacroFacts.TwiceExample | metascript/macros.py:198-313 | `macro twice(x): say x` and then `@twice("Hi")` leave exactly `say "Hi"` |
| MacroFacts.ScopeExample | metascript/macros.py:217-236 | a macro defined in a function body is visible in that body only |
| MacroFacts.HygieneExample | metascript/macros.py:244-256 | a macro's own `tmp` becomes `__ms_macro_tmp_1`, and the caller's `tmp` is left alone |
| MacroFacts.HygieneRenaming | metascript/macros.py:244-256 | the renaming of the hygiene example's macro body |
| MacroFacts.NestedDefinitionSurvives | metascript/macros.py:307-308 | a `macro` written directly in a macro body is not consumed: it comes out as a statement |
| MacroFacts.CaseBindingNotRenamed | metascript/macros.py:115-119 | a name bound by a `case` pattern in a macro body is not renamed, while an assigned name is |
| MacroFacts.FreshNameInjective | metascript/macros.py:82-84 | fresh names with different bases or counters differ |
| MacroFacts.FreshNamesSpec | metascript/macros.py:250-254 | exactly the non-parameter names get fresh names, all distinct; the counter moves on by their number |
| MacroFacts.CollectSpec | metascript/macros.py:87-119 | the collection adds the names the statement declares, each once |
| MacroFacts.CollectBodySpec | metascript/macros.py:245-247 | the same for a whole macro body |
| MacroFacts.RenamedAtCall | metascript/macros.py:245-254 | at a call, exactly the names the body declares, less the parameters, are renamed, each to a distinct fresh name |
| MacroFacts.ParamsKept | metascript/macros.py:131-134 | an expression that mentions only parameters is not renamed |
| MacroFacts.SubstNames | metascript/macros.py:7-31 | after substitution an expression mentions its unmapped names and the names the substituted expressions bring, and nothing else |
| MacroFacts.SubstNothing | metascript/macros.py:282 | substituting the empty mapping changes nothing |
| MacroFacts.ParamMappingSpec | metascript/macros.py:258-263 | exactly the parameters are mapped; a parameter's last position decides its value, its argument there or its own name |
| MacroFacts.NodeCounterGrows | metascript/macros.py:206-209 | expansion only moves the fresh-name counter forward |
| MacroFacts.ExpandMacrosFuel | metascript/macros.py:198-313 | the depth bound stands only for Python's recursion limit: an outcome other than `TooDeep` stays the same under more fuel |
| MacroFacts.BlockFuel | metascript/macros.py:217-236 | the same for a block |
| MacroFacts.NodeFuel | metascript/macros.py:238-308 | the same for a statement |
| MacroFacts.CasesFuel | metascript/macros.py:290-294 | the same for the cases of a `match` |
| MacroFacts.EachFuel | metascript/macros.py:265-273 | the same for the statements of a macro body |
| MacroFacts.FreeNodeKept | metascript/macros.py:276-308 | a statement without macros expands to itself, empty else lists dropped, and the counter does not move |
| MacroFacts.CanonTwice | metascript/macros.py:281-285 | dropping empty else lists twice is dropping them once |
| MacroFacts.ExpandFreeProgram | metascript/macros.py:198-313 | a program without macros expands, at any depth, to itself with empty else lists dropped, and expanding that again changes nothing |
| MacroFacts.EmptyElseAfterTwoExpansions | metascript/macros.py:281-285 | an else branch holding only a macro definition is an empty list after one expansion and gone after the next |
| Printing.BinaryParenthesised | metascript/transpiler_js.py:18-19 | a binary operation is printed fully parenthesised, in every printer |
| Printing.Pad | metascript/transpiler_py.py:25 | the padding is four spaces per level |
| Printing.QuotedPlain | metascript/transpiler_js.py:8-9 | a text without `"` is written between double quotes as it is |
| Printing.EscapedQuotes | metascript/transpiler_js.py:9 | after escaping, every `"` is preceded by a backslash |
| Printing.EscapedInjective | metascript/transpiler_js.py:9 | different texts escape differently |
| Printing.ReprNoBreak | metascript/transpiler_py.py:8 | the `repr` of a text never spans two lines |
| Printing.ReprPlain | metascript/transpiler_py.py:8 | printable ASCII text without quotes or backslashes is written between single quotes as it is |
| TranspileJs.ListPatternTest | metascript/transpiler_js.py:38-51 | the loop over the elements builds the test and bindings `PatternTestOf` defines |
| TranspileJs.ItemTestsSpec | metascript/transpiler_js.py:43-49 | an element is checked in place exactly when it is an integer or a string literal |
| TranspileJs.ItemBindsSpec | metascript/transpiler_js.py:43-45 | every name element is bound to the array element at its index, and every binding comes from one |
| TranspileJs.EmitMatch | metascript/transpiler_js.py:107-121 | the case loop writes what the `Match` branch of `EmitNode` defines |
| TranspileJs.CaseOrder | metascript/transpiler_js.py:111-120 | each case opens its own branch, in source order: `if` for the first, `else if` for the rest |
| TranspileJs.MatchLowering | metascript/transpiler_js.py:107-110 | a `match` starts with a constant holding the subject |
| TranspileJs.Transpile | metascript/transpiler_js.py:139-145 | translation fails exactly when expansion fails, with its error; the output starts with the header and ends with a line break |
| TranspileJs.LiteralInjective | metascript/transpiler_js.py:8-9 | different strings give different JavaScript literals |
| TranspileJs.SayLogs | metascript/transpiler_js.py:58-59 | `say` and `print` both log their text |
| TranspileJs.RangeDefaults | metascript/transpiler_js.py:74-94 | `range(n)` counts like `range(0, n)`, and an integer end like `range(N)` |
| TranspileJs.ForLoopKinds | metascript/transpiler_js.py:71-97 | a loop counts with `let` exactly when its end is a `range` call or an integer, and otherwise iterates with `for ... of` |
| TranspileJs.AsyncPrefix | metascript/transpiler_js.py:98-102 | an async function differs from the plain one only by the `async ` prefix |
| TranspileJs.MacroHelpers | metascript/transpiler_js.py:128-135 | a macro left in the tree becomes a function `__macro_<name>`, and its call becomes a call of that function |
| TranspileJs.TranspileMacroFree | metascript/transpiler_js.py:139-145 | without macros, translation succeeds and writes the program itself, empty else lists dropped |
| TranspileJs.TwiceTranspiles | metascript/transpiler_js.py:139-145 | the `twice` macro example translates to a single `console.log("Hi");` |
| TranspileJs.UndefinedMacroFails | metascript/transpiler_js.py:141 | a call of an undefined macro makes the translation fail |
| TranspilePy.EmitMatch | metascript/transpiler_py.py:56-82 | the case loop writes what the `Match` branch of `EmitStmt` defines |
| TranspilePy.StmtLines | metascript/transpiler_py.py:24-141 | a statement at indentation `d` occupies at least one line, each at depth `d` or deeper |
| TranspilePy.Rendered | metascript/transpiler_py.py:24-141 | the text written for a statement is the layout of those lines |
| TranspilePy.BlockRendered | metascript/transpiler_py.py:33-52 | a nested body, empty or not, is the layout of its lines one level deeper |
| TranspilePy.TranspileLayout | metascript/transpiler_py.py:144-152 | the output is the header, the lines of the expanded program at depth 0, and a final line break |
| TranspilePy.SayPrints | metascript/transpiler_py.py:26-27 | `say` and `print` both print their text; a plain string is printed between single quotes |
| TranspilePy.ForEnds | metascript/transpiler_py.py:37-46 | every loop end other than an integer is written as it is; an integer `N` is written as `range(N)` |
| TranspilePy.DefLines | metascript/transpiler_py.py:30-34 | `async` comes from the definition's flag, and an empty body is written as `pass` one level deeper |
| TranspilePy.Unlowered | metascript/transpiler_py.py:140-141 | `while`, `do`, macros left in the tree, bare non-call expressions and unknown agents are written as `# unsupported-stmt` |
| TranspilePy.PatternKinds | metascript/transpiler_py.py:62-74 | a case test is `True` exactly for a wildcard or a name, and only a name binds; every other pattern but an integer is `False` |
| TranspilePy.UndefinedMacroKept | metascript/transpiler_py.py:146-149 | an expansion error is swallowed: the undefined call is written as an unsupported statement |
| Unparse.UnparseMatch | metascript/unparse.py:53-68 | the text grown case by case is what `UnparseStmt` of the `match` defines |
| Unparse.AppendCases | metascript/unparse.py:55-67 | the case loop appends exactly the case lines, in order |
| UnparseFacts.RoundTrip | metascript/unparse.py:72-73 | a program of `say`/`print` statements of plain strings, unparsed and parsed again, is given back unchanged |
| UnparseFacts.LineRoundTrip | metascript/unparse.py:25-28 | the line `say "t"` parses to its statement, which unparses to the same line |
| UnparseFacts.SimpleLineParses | metascript/parser.py:317-324 | the line the unparser writes for a plain `say`/`print` parses back to the statement |
| UnparseFacts.SameLines | metascript/parser.py:493 | a final line break does not change what a line parses to |
| UnparseFacts.DefDropsAsync | metascript/unparse.py:31-34 | a definition is written as `def name(` whether or not it is async: the flag is not printed |
| UnparseFacts.LoopEnds | metascript/unparse.py:37-43 | a `for` loop's integer end `N` is written `range(N)`, and any other end, a call of `range` included, as it is |
| UnparseFacts.UnsupportedIff | metascript/unparse.py:51-69 | a statement is written as `# unsupported` exactly when it is a while loop, `do` block, agent call, macro definition or macro call, or an expression statement that is not a call |
| BackendAgent.Permission | metascript/agents/backend_agent.py:40-41 | a permission lookup succeeds exactly when the permissions are falsy or a dictionary, and gives the granted flag |
| BackendAgent.ValidateExecution | metascript/agents/backend_agent.py:35-54 | approved exactly when each marker kind found is permitted; the danger reason comes first; an approval carries the plan; a refusal has none |
| BackendAgent.ApprovedPlanBounded | metascript/agents/backend_agent.py:51-54 | an approved plan lies within 200-20000 ms and 16-1024 MB |
| BackendAgent.DangerFirst | metascript/agents/backend_agent.py:41-49 | `socket` and `requests` are reported as unsafe, whatever the network permission says |
| BackendAgent.OpenNeedsPermission | metascript/agents/backend_agent.py:41-44 | `open(` in any letter case is refused without `allow_unsafe`, and allowed with it when no network marker is present |
| BackendAgent.CleanApproved | metascript/agents/backend_agent.py:51-54 | code with neither kind of marker is approved under any permissions |
| BackendAgent.PlanValue | metascript/agents/backend_agent.py:24-29 | it fails exactly for a truthy value that is not a string (no `splitlines`), and every plan it returns lies within 200-20000 ms and 16-1024 MB |
| BackendAgent.HandleMessage | metascript/agents/backend_agent.py:57-81 | `validate` answers with the verdict on the payload's code and permissions; an unknown action echoes the message back |
| BackendAgent.Envelope | metascript/agents/backend_agent.py:60-61 | the action is read from `action` or `type`, and the payload from `payload` |
| BackendAgent.ValidateRouted | metascript/agents/backend_agent.py:63-65 | a `validate` message answers with `validate_execution` on its code and permissions |
| BackendAgent.PlanRouted | metascript/agents/backend_agent.py:67-73 | a `plan` message answers with the bounded plan of its code |
| BackendAgent.ToolRouted | metascript/agents/backend_agent.py:75-78 | a `call_tool` message reaches the dispatcher |
| BackendAgent.UnknownToolRouted | metascript/agents/backend_agent.py:75-78 | an unregistered tool in a `call_tool` message gets the unknown-tool answer |
| AgentTools.PlanForLines | metascript/agents/tools.py:163-164 | every plan lies within 200-20000 ms and 16-1024 MB |
| AgentTools.ComputePlan | metascript/agents/tools.py:161-166 | the plan of a text, by its `splitlines` count, lies within the same bounds |
| AgentTools.PlanMonotone | metascript/agents/tools.py:163-164 | more lines never ask for less time or memory |
| AgentTools.PlanGrows | metascript/agents/tools.py:162-164 | one more line in front of a text never lowers its plan |
| AgentTools.PlanEnds | metascript/agents/tools.py:163-164 | up to two lines get the smallest plan, 200 lines or more the largest time, and 100 ms per line in between |
| AgentTools.GetPlanForCode | metascript/agents/tools.py:161-166 | string code answers `ok` with its plan; any other code has no `splitlines` |
| AgentTools.WordsCounted | metascript/agents/tools.py:78 | `split()` gives one word per start of a non-white-space run |
| AgentTools.StatsLines | metascript/agents/tools.py:77 | the line count is the number of `\n`-separated pieces of a non-empty text, and 0 for the empty text |
| AgentTools.StatsWords | metascript/agents/tools.py:78-79 | the word count counts run starts; the character count is the length |
| AgentTools.StatsExample | metascript/agents/tools.py:73-80 | `"a b\nc"` has two lines, three words and five characters |
| AgentTools.ComputeStats | metascript/agents/tools.py:73-80 | a missing text counts as empty; `None` is refused with an error answer; a string gets its three counts; anything else raises |
| AgentTools.ContainsAnySpec | metascript/agents/tools.py:149 | the scan finds a pattern exactly when one occurs in the text |
| AgentTools.SayLines | metascript/agents/tools.py:153 | a line is kept exactly when it is a `say` line, and no more lines come out than went in |
| AgentTools.SayLinesAppend | metascript/agents/tools.py:153 | filtering a concatenation gives the two filtered parts joined in order, so the kept lines keep their order and multiplicity |
| AgentTools.SayOutputs | metascript/agents/tools.py:154-157 | the loop collects the text of each `say` line with its quotes stripped |
| AgentTools.SimulatedStdout | metascript/agents/tools.py:152-158 | code that is not refused produces those texts joined by line breaks |
| AgentTools.SimulateRunTool | metascript/agents/tools.py:146-158 | a run is refused, with exit code 2, exactly when a dangerous pattern occurs in any letter case; otherwise it exits with 0 |
| AgentTools.RefusedAnyCase | metascript/agents/tools.py:149-151 | a pattern found in any letter case refuses the run |
| AgentTools.SimulatedSays | metascript/agents/tools.py:146-158 | a program of `say "t"` lines prints exactly those texts, one per line |
| AgentTools.EmptyProgramRun | metascript/agents/tools.py:153-158 | the unparsed empty program prints nothing |
| AgentTools.ListTools | metascript/agents/tools.py:190-191 | every registered tool is listed with its description, in registry order |
| AgentTools.Listed | metascript/agents/tools.py:177-191 | a name is listed exactly when it is registered, with its own description |
| AgentTools.CallTool | metascript/agents/tools.py:194-214 | an unregistered name gets the unknown-tool answer; a list or dictionary name raises; a registered name never gets it |
| AgentTools.UnknownIffUnlisted | metascript/agents/tools.py:198-202 | a name is answered as unknown exactly when `list_tools` does not list it |
| AgentTools.GetPlanTool | metascript/agents/tools.py:204-214 | `get_plan` on string code answers with the same plan the backend computes |

## Left out

- Text.IsDigit: only ASCII `0`-`9`. Python's `\d` and `str.isdigit` also accept other Unicode digits, so the expression and pattern readers differ on such text (parser.py lines 167, 182, 298, 424, 439). Two examples:
  - `ParseExpression("٣")` is `Ok(NoneExpr)`, where Python reads `LiteralInt(3)`.
  - `ParsePattern("²")` is `NamePattern("²")`, where Python's `int()` raises `ValueError`.
- Text.IsWordChar: only ASCII letters, digits and `_`. Python's `\w` and `\b` accept every Unicode letter and digit. This affects the names the readers accept (parser.py lines 172, 188, 336, 357, 368, 388, 424, 439, 460).
- Text.AllDigits: `str.isdigit` restricted to ASCII in the same way (parser.py:298), as are `ExprParser.DigitRun` and `LineFacts.PatternKinds`, which use it.
- ExprParser.DigitRun: `\d+` over ASCII digits only (parser.py:182).
- ExprParser.WordRun: `\w*` over ASCII word characters only (parser.py:188).
- LineParser.CaseAt: the `\bcase\b` boundary is recognised with ASCII word characters only (parser.py:388).
- Text.DigitsValue: has no length limit. Python's `int()` refuses more than 4300 digits.
- Printing.Repr: escapes only what its doc comment lists:
  - the C0 controls, U+007F-U+00A0, U+00AD and U+2028/U+2029;
  - backslash and the quotes, which follow Python's rule for choosing the quote.
  Python also escapes other non-printable characters, such as U+200B; the model writes those as they are.
- Text.Lower: lower-cases ASCII letters and the Kelvin sign only; other Unicode case mappings are left out. The one of them that yields an ASCII letter, `İ` to `i` plus a combining dot, cannot complete any marker the agent and the tools look for, since none has an `i` at its end.
- Macros.FreshNames: numbers the renamed names in the order the body declares them. Python iterates a `set` in hash order, which varies from run to run (macros.py:245-254). So the model picks one of Python's possible numberings. The lemmas about it hold for every order: the renamed set, distinctness and the counter.
- Macros.ExpandNode: a `None` in a statement list is modelled as `ExprStmt(NoneExpr)` and kept, where `expand_stmt_list` drops it (macros.py:231-233). The parser never puts one in a list, because one-line bodies go through `Body` (parser.py:342, 411), so the difference does not arise on parsed programs.
- Macros.ExpandMacros: takes `fuel`, a bound on the nesting of macro calls, in place of Python's recursion limit. Running out is `Err(TooDeep)`. `ExpandMacrosFuel` shows that fuel changes no other outcome.
- ExprParser.AtomAt, LineParser.ParseLine: Python's recursion limit on deeply nested expressions and lines is not modelled.
- ExprParser.ArgsLoop, ExprParser.ListLoop: where the Python loop would repeat forever, the model returns `Err(NoProgress)`. That happens when the input runs out inside `f(` or `[`, or when an element reads as nothing before a character other than `,`, `)` or `]`. See Findings.
- Error messages: exceptions are values (`ParseError`, `ExpandError`, `Failure`) without Python's message texts, except where a message reaches an answer: the agent's reasons and the tools' error answers.
- LineParser.ParseLine: regular-expression `.` is modelled as any character. The lines it receives come from `splitlines` and never hold a line break, so the difference does not arise.
- parse_number_or_name (parser.py:165-177): not modelled. Nothing calls it.
- `_parse_with_lark` (parser.py:538-539): not modelled. `Fallback.Parse` is the path taken without Lark.
- The `UnaryOp` node: nothing in the modelled parser produces it. Its serialisation, substitution and printing are modelled. The renamer leaves it as it is, as `macros.py` does.
- TranspilePy: the agent-call lowering (transpiler_py.py:84-138) is not part of this model. It is the parameter `AgentLowering`, and the proofs hold for every lowering.
- UnparseFacts.RoundTrip: proved only for `say`/`print` of plain strings. In general the unparser does not round-trip; for example, the fallback parser does not undo the escaping of quotes.
- BackendAgent.HandleMessage: requires a dictionary, as the signature types it. A message that is not a dictionary would raise `AttributeError`, which the model does not cover.
- Audit records (`metascript/audit.py`): `audit.record` writes to a log and is not part of this model. `validate_execution` only needs `len(code)` from it; the model keeps that as the `NoLength` failure for code without a length.
- Tools `read_file`, `write_file`, `list_dir`, `safe_eval`, `http_get` and `format_code`: they use the file system, the network or Python's evaluator, and are not part of this model. `AgentTools.CallTool` answers `Outside(name)` for them.
- Floating point, clocks, files and the network: not used by the modelled core.

## Where the code and its description differ

- The description of the language says `for i in range(n)` becomes a loop over `FunctionCall("range", [n])`. The code (parser.py:435-437) uses the bound `n` itself as the loop end. The model follows the code (`LineFacts.RangeOneLine`). Both printers count up to an integer or a `range` call, so the generated loops agree.
- The JavaScript translator lets an expansion error escape (transpiler_js.py:141). The Python translator swallows it and prints the unexpanded tree (transpiler_py.py:146-149). The model keeps both behaviours: `TranspileJs.UndefinedMacroFails` and `TranspilePy.UndefinedMacroKept`.

## Findings

| source | as written | input that shows it | evidently intended | confidence | as-written member | corrected member |
|---|---|---|---|---|---|---|
| metascript/parser.py:196-208 | the argument loop (and the list loop at parser.py:232-245) goes round again whenever the next character is neither `,` nor `)`. At the end of the input nothing is consumed, so it never stops and appends `None` forever | `f(` (also `[1, 2` for lists) | an unterminated call or list is an error; a finished call always ends with `)` and a list with `]` | high, not executed | ExprFacts.ArgsNeverEnd | ExprFacts.ArgsEndWithParen |
| metascript/macros.py:281-285 | an `else` branch that held only macro definitions expands to an empty list, which is kept, and a second expansion drops it. Expansion is not idempotent on trees it produced; `macros.py:307-308` likewise keeps a nested `macro` in a macro body | the line `if c: say "a" else: macro m(): say "b"`, parsed and expanded twice | expanding an already expanded tree changes nothing | medium, not executed | MacroFacts.EmptyElseAfterTwoExpansions | MacroFacts.ExpandFreeProgram |

In the first row the model returns `Err(NoProgress)` where Python would loop forever:
- `ExprFacts.ArgsNeverEnd` and `ExprFacts.ListNeverEnds` exhibit the missing progress.
- `ExprFacts.ArgsEndWithParen` and `ExprFacts.ListEndsWithBracket` prove that every completed call or list is closed.

In the second row:
- `MacroFacts.NestedDefinitionSurvives` shows the related case of a nested definition.
- The model relates trees up to `Ast.Canon`, which drops empty else lists. `ExpandFreeProgram` proves that expansion is idempotent up to this normalisation, and `Ast.CanonSameDict` and `Ast.StmtToDictInjective` prove that the normalisation is exactly the distinction `node_to_dict` forgets.
