# PL460-to-C++ translator: a Dafny model of its parser and code generator

The translator reads a `.pl460` source file, a small Scheme dialect, and writes a
C++ file. Three parts are modelled here.

- The driver (`main`) checks its arguments and the `.pl460` extension, then
  strips the extension to get the file-name prefix.
- The syntactical analyzer is a recursive-descent parser, one function per grammar
  production:
  - program, more_defines, define, stmt_list and stmt;
  - literal, quoted_lit, logical_lit, more_tokens and param_list;
  - else_part, stmt_pair, stmt_pair_body, assign_pair, more_assigns, action and
    any_other_token.

  Each production does panic-mode recovery. It checks the lookahead against its FIRST
  set on entry and against its FOLLOW set on exit. When the lookahead is not in the
  set, it reports the token as unexpected once and skips tokens until one is in the set.
- The code generator writes a fixed preamble naming `<prefix>.cpp`. After that, every
  `WriteCode(tabs, code)` call appends that many tab characters and then the code. Only
  define, display and newline write code:
  - define writes `int name() {` and later the closing brace;
  - display writes one `cout << …;` line for a quoted list, a quoted atom, a number or a
    string;
  - newline writes `cout << endl;`.

How the model is built:

- The token stream is a parameter. It is the sequence of tokens before end of input.
  Reading past its end yields end of input again, and the cursor stays put.
- One parse threads a `State` through the productions:
  - the cursor;
  - the fragments written so far, one per `WriteCode` call;
  - the diagnostics reported so far.
- stmt_list on a literal, an identifier or a quote calls itself again without
  consuming input. `StmtListDiverges` proves that no budget is enough for it to
  return, so the source recurses without bound there. Define's body loop, by
  contrast, consumes at least one token per turn (`BodyTurnAdvances`). Because
  stmt_list is reachable from the other productions, the mutually recursive
  productions take a `fuel` budget and return `OutOfFuel` when it runs out.
- Every production below define writes only depth-1 output statements, the ones
  display and newline produce (`WritesStmts`). The only other code written is
  define's function header and closing brace, at depth 0.
- The validating productions literal, quoted_lit, logical_lit, more_tokens,
  any_other_token and param_list always consume input before they recurse. They are
  total functions, with termination proved on the remaining input.

Behaviour of the code a reader may not expect:

- define never calls param_list. After the function name it requires `)` at once.
  A parameter reports "')' expected after function parameters", and the body is
  not parsed (`DefineMissingClose`).
- After the header, define's body loop runs stmt and then consumes one more token,
  whatever it is, until `)` or end of input.
- display's quoted-list loop is not balanced. It collects lexemes up to the first `)`
  or end of input, nested parentheses included (`DisplayArgWrites`).
- program's rule is `( define ( more_defines EOF`. A source with one define and
  nothing after it therefore ends with two diagnostics: a missing `(`, then
  more_defines seeing end of input as unexpected (`LoneDefine`).
- display with an argument other than a quote, a number or a string writes nothing.
  The argument is left for action's exit guard, as the source does (`DisplayArgWrites`).

## Model

| member | source | states |
|---|---|---|
| Grammar.EofInEverySet | SyntacticalAnalyzer.cpp:117-1572 | End of input belongs to every production's FIRST and FOLLOW set and the lexer's error token to none, so every skip loop stops at the latest at end of input. |
| Grammar.QuotableAsListed | SyntacticalAnalyzer.cpp:1559-1565 | The categories a quoted datum may start with are exactly the 36 the quoting productions list: every category except `)`, the error token and end of input. |
| CodeGen.WriteCode | CodeGenerator.cpp:46-51 | The output keeps everything written before, then has exactly max(tabs, 0) tab characters, then exactly the code, and nothing else. |
| CodeGen.WriteCodeLoop | CodeGenerator.cpp:46-51 | The tab-per-iteration loop produces the same text as the declarative WriteCode, including for negative depths. |
| CodeGen.WriteAllAppends | CodeGenerator.cpp:46-51 | A sequence of WriteCode calls leaves the earlier output untouched and appends the rendered fragments in call order. |
| CodeGen.Generate | CodeGenerator.cpp:21-31 | The generated file is the preamble for `<prefix>.cpp` followed by the rendering of every fragment, in order. |
| CodeGen.GenerateStartsWithPreamble | CodeGenerator.cpp:24-30 | Every generated file starts with the banner comment, the `// File:` line naming `<prefix>.cpp`, the two includes and the using line, each at its own offset. |
| ParseState.Next | SyntacticalAnalyzer.cpp:88 | Reading a token moves the cursor by one unless it is at end of input, and changes neither output nor diagnostics. |
| ParseState.Expect | SyntacticalAnalyzer.cpp:138-147 | A required token is consumed when present. Otherwise exactly one "expected" diagnostic is added and the cursor does not move. |
| ParseState.Skip | SyntacticalAnalyzer.cpp:129-130 | The skip loop stops at a token of the set, and no token it passed over is in the set. It writes and reports nothing. |
| ParseState.Guard | SyntacticalAnalyzer.cpp:124-131 | When the lookahead is in the set, nothing changes. Otherwise it is reported as unexpected once, at least one token is consumed, all skipped tokens lie outside the set, and the final lookahead is inside it. |
| Literals.AnyOtherToken | SyntacticalAnalyzer.cpp:1556-1831 | Writes no code, ends on a token of its FOLLOW set, and away from end of input consumes at least one token. |
| Literals.MoreTokens | SyntacticalAnalyzer.cpp:719-774 | Writes no code and ends at `)` or end of input. |
| Literals.QuotedLit | SyntacticalAnalyzer.cpp:600-649 | Writes no code and ends on a token of its FOLLOW set. |
| Literals.LogicalLit | SyntacticalAnalyzer.cpp:668-717 | Writes no code, ends on its FOLLOW set, and consumes `#t` or `#f` when one is the lookahead. |
| Literals.Literal | SyntacticalAnalyzer.cpp:518-580 | Writes no code, ends on its FOLLOW set, and consumes at least one token on every literal start. |
| Literals.ParamList | SyntacticalAnalyzer.cpp:793-842 | Writes no code and ends at `)` or end of input. |
| Emission.ScanList | SyntacticalAnalyzer.cpp:1463-1474 | The list loop stops at the first `)` or end of input after its start, and collects exactly the lexemes it passed. |
| Emission.BuildListText | SyntacticalAnalyzer.cpp:1459-1476 | The first-element-flag loop builds `"(` + the lexemes separated by single spaces + `)"`. |
| Emission.DisplayArg | SyntacticalAnalyzer.cpp:1447-1500 | display's argument handling never reports a diagnostic and writes at most one fragment, a depth-1 output statement. |
| Emission.DisplayArgWrites | SyntacticalAnalyzer.cpp:1447-1500 | For each argument shape, the exact output statement and final cursor: a quoted list up to the first `)` (consumed if present), a quoted atom, a number or string literal, or for any other argument no change. |
| Emission.NewlineBranch | SyntacticalAnalyzer.cpp:1501-1507 | newline writes exactly one depth-1 `cout << endl;` statement and consumes exactly its keyword. |
| Productions.Program | SyntacticalAnalyzer.cpp:114-178 | A finished program run only extends the state, and ends at end of input. |
| Productions.MoreDefines | SyntacticalAnalyzer.cpp:193-263 | A finished run only extends the state and ends at end of input. |
| Productions.Define | SyntacticalAnalyzer.cpp:277-370 | A finished run only extends the state and ends at `(` or end of input. |
| Productions.DefineBody | SyntacticalAnalyzer.cpp:310-326 | The body loop writes only output statements, ends at `)` or end of input, and returns at once when started on one of them. |
| Productions.StmtList | SyntacticalAnalyzer.cpp:384-434 | A finished run writes only depth-1 output statements and ends at `)` or end of input. |
| Productions.Stmt | SyntacticalAnalyzer.cpp:449-502 | A finished run writes only depth-1 output statements and ends on its FOLLOW set. On a literal, identifier or quote it changes nothing. |
| Productions.StmtLoop | SyntacticalAnalyzer.cpp:468-487 | The loop writes only output statements, ends on a token other than `(`, and does nothing when started on one. |
| Productions.ElsePart | SyntacticalAnalyzer.cpp:859-908 | A finished run writes only depth-1 output statements and ends at `)` or end of input. |
| Productions.StmtPair | SyntacticalAnalyzer.cpp:929-978 | A finished run writes only depth-1 output statements and ends at `)` or end of input. |
| Productions.CondClause | SyntacticalAnalyzer.cpp:1001-1018 | A cond clause followed by the remaining clauses writes only depth-1 output statements and ends at `)` or end of input. |
| Productions.StmtPairBody | SyntacticalAnalyzer.cpp:982-1054 | A finished run writes only depth-1 output statements and ends at `)` or end of input. |
| Productions.AssignPair | SyntacticalAnalyzer.cpp:1072-1135 | A finished run writes only depth-1 output statements and ends at `(`, `)` or end of input. |
| Productions.MoreAssigns | SyntacticalAnalyzer.cpp:1137-1186 | A finished run writes only depth-1 output statements and ends at `)` or end of input. |
| Productions.Action | SyntacticalAnalyzer.cpp:1206-1534 | A finished run writes only depth-1 output statements, the ones display and newline produce, and ends at `)` or end of input. |
| Productions.Alternative | SyntacticalAnalyzer.cpp:1229-1519 | Whichever alternative the keyword selects, a finished run writes only depth-1 output statements. |
| Productions.IfForm | SyntacticalAnalyzer.cpp:1229-1237 | `if` stmt stmt else_part writes only depth-1 output statements. |
| Productions.LetForm | SyntacticalAnalyzer.cpp:1255-1283 | `let` ( more_assigns ) stmt stmt_list writes only depth-1 output statements. |
| Productions.StmtForm | SyntacticalAnalyzer.cpp:1284-1434 | The one-stmt, two-stmt and stmt-then-list operator rules write only depth-1 output statements. |
| Productions.RuleForCoversActionFirst | SyntacticalAnalyzer.cpp:1210-1215 | action's rule table has an alternative for exactly the categories of its FIRST set other than end of input. |
| Productions.StmtListDiverges | SyntacticalAnalyzer.cpp:403-409 | On a literal, identifier or quote, stmt_list calls itself on the same lookahead, and no budget is enough for it to return. |
| Productions.BodyTurnAdvances | SyntacticalAnalyzer.cpp:314-327 | Away from `)` and end of input, stmt followed by the loop's unconditional read always moves the cursor forward. |
| Productions.DefineWithoutHeader | SyntacticalAnalyzer.cpp:296-350 | Without a complete `define ( name` header, define writes nothing. |
| Productions.DefineWritesFunction | SyntacticalAnalyzer.cpp:296-330 | A complete `define ( name )` writes the header, then exactly what the body loop writes from the token after `)`, all of it depth-1 output statements, then the closing brace. |
| Productions.DefineMissingClose | SyntacticalAnalyzer.cpp:304-360 | `define ( name` without `)` writes only the header and reports the missing `)`, then the exit guard's report unless the next token may follow define. |
| Productions.ActionWrites | SyntacticalAnalyzer.cpp:1447-1519 | newline writes exactly its end-of-line statement, display exactly what its argument calls for, and read or an unknown keyword nothing. |
| Scenarios.DisplayLiteral | SyntacticalAnalyzer.cpp:1492-1498 | `display` on a number or string literal in front of `)` writes `cout << lit;` at depth 1, consumes two tokens, and reports nothing. |
| Scenarios.NewlineAction | SyntacticalAnalyzer.cpp:1501-1507 | `newline` in front of `)`: one end-of-line statement, one token consumed, no diagnostic. |
| Scenarios.LoopTurn | SyntacticalAnalyzer.cpp:468-487 | One turn of stmt's loop consumes `(`, runs action, consumes its `)`, and continues after it. |
| Scenarios.DisplayStatement | SyntacticalAnalyzer.cpp:468-487 | The statement `( display lit )` writes the literal's output statement, stops after the `)`, and reports nothing. |
| Scenarios.MoreDefinesAtEnd | SyntacticalAnalyzer.cpp:193-263 | At end of input more_defines reports one unexpected token and changes nothing else. |
| Scenarios.LoneDefine | SyntacticalAnalyzer.cpp:114-178 | A source with one define and nothing after it keeps define's output, and adds a missing-`(` diagnostic followed by an unexpected end of input. |
| Driver.ExtensionOf | Project3.cpp:22-25 | For names longer than six characters the extension is their last six characters; otherwise it is empty. |
| Driver.CheckArgs | Project3.cpp:16-31 | Fewer than two arguments means usage. A name is accepted exactly when it is longer than `.pl460` and ends with it, and then prefix + `.pl460` is the name. |
| Driver.CheckArgsRoundTrip | Project3.cpp:22-31 | Every non-empty prefix with `.pl460` appended is accepted, and the prefix comes back unchanged. |
| Driver.BareExtensionRejected | Project3.cpp:24-30 | The name `.pl460` alone is rejected, because only names longer than six characters have an extension. |
| Driver.Translate | SyntacticalAnalyzer.cpp:83-90 | A finished translation's file starts with the preamble for `<prefix>.cpp`. |
| Driver.ProgramReadsAll | SyntacticalAnalyzer.cpp:166-173 | For a lexer's token stream, a finished parse has read all of the input. |
| Driver.EmptyProgram | SyntacticalAnalyzer.cpp:160-173 | An empty source gets exactly one diagnostic, end of input unexpected, and no code. |
| Driver.EmptyInput | SyntacticalAnalyzer.cpp:83-90 | The file generated from an empty source is the preamble alone. |

## Left out

- The lexical analyzer: tokens are a parameter. The lexeme the parser reports at end of input is taken to be empty.
- The `.p2` rule file, the debug trace, and the formatting of diagnostics into `sprintf` buffers: diagnostics are kept abstract.
- The per-production `errors` counters: they are never read.
- Opening, writing and closing files, the console messages and the exit codes of `main`.
- OutOfFuel stands for the source's unbounded recursion: a run that needs more than the given budget is not described.
- literal, quoted_lit, logical_lit and param_list are modelled, but program never reaches them: define does not call param_list and no production of program's grammar calls literal. literal calls quoted_lit and logical_lit, and param_list calls itself.
- ParseState.Extends: compares the diagnostics by count only. The productions only ever append diagnostics, but stating prefix order for both output and diagnostics made the proofs too expensive.
- Productions.Program and the other fuel-bounded productions: state their results only for runs that finish within the budget.
