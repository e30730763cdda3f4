# A verified model of the Cool LALR(1) parser

This project models the Bison-generated parser for the Cool language (`PA3/cool-parse.cc`). The parser is in three parts:

- **The driver, `yyparse`.** It is a table-driven shift/reduce automaton over three parallel stacks: states, semantic values and line numbers. It holds a lookahead slot (`yychar`), an error-recovery countdown (`yyerrstatus`) and an error count (`yynerrs`).
- **The semantic actions.** These are the `switch` over rules 2–73 that builds the abstract syntax tree of a Cool program.
- **Error recovery.** This covers the `yyerrlab` and `yyerrlab1` labels and the error ceiling of `yyerror`, which counts errors in `omerrs` and stops the program after 50.

The project is organised by module:

- `Tables.dfy` (`ParserTables`) holds the constants and the nine tables. They are `yytranslate`, `yypact`, `yydefact`, `yypgoto`, `yydefgoto`, `yytable`, `yycheck`, `yyr1` and `yyr2`.
  - Each table is a total function whose result type is the range of its entries.
  - The function bodies were generated mechanically from the arrays of `PA3/cool-parse.cc`. Each is a binary search over its index. A range of indices is split at its midpoint (`if p < mid`). The split stops at a range whose entries are all equal, which becomes that value. It also stops at a range of at most eight entries, which becomes a `match` listing each index but the last, with the last entry as the default case (`case _`).
  - This layout keeps the verifier's reasoning about a single entry cheap.
- `Decode.dfy` (`TableDecode`) reads the tables the way the driver does:
  - the lookahead translation;
  - the action of a state on a token;
  - the default action;
  - the goto after a reduction;
  - the test for a state that can shift the `error` token.
- `Precedence.dfy` (`Precedence`) states the operator precedence and associativity that the tables encode. Bison resolved the grammar's shift/reduce conflicts when it built them. Each lemma covers every state that has just read `e1 op e2`; a state is named by the rule it reduces by default. The ladder, loosest first, is: `not`; then `=`, `<`, `<=` (non-associative); then `+`, `-` (left); then `*`, `/` (left); then `isvoid` and `~`.
- `Ast.dfy` (`CoolAst`) is the abstract syntax tree. Every node carries its line. Symbols are compared by their text.
- `Actions.dfy` (`SemanticActions`) holds the values of the semantic stack (the `YYSTYPE` union) and the semantic action of every rule, as one pure function. It also proves that actions keep trees well formed, meaning no `case` without a branch.
- `ActionLaws.dfy` (`ActionLaws`) holds the grammar's conventions, stated as equations over the actions:
  - a missing `inherits` becomes `Object`;
  - a missing receiver becomes `self`;
  - a missing initializer becomes `no_expr`;
  - a method written `()` gets the empty formal list;
  - parentheses are transparent;
  - lists keep source order, and case lists are never empty;
  - a multi-binding `let` nests to the right.
- `Driver.dfy` (`Driver`) is the driver, as a class `Parser`:
  - The stacks are three arrays of `YYINITDEPTH` entries with an index each.
  - There is one method per label of `yyparse`.
  - A step-bounded loop, `Parse`, runs them.
  - The predicate `At(label)` states what holds at each label: the stacks' relative heights, that the current state is on top, and the bounds.
  - `Common()` states the counters' ranges and that every stacked value is well formed.
  - Every step method preserves both.

Inputs outside the parser are parameters:
- **The lexer** is a finite sequence of `Lexeme`s. Each holds the token code, what the lexer stores in `yylval`, and `curr_lineno` after the token.
- **The current file name** is passed to the constructor.

## Model

| member | source | states |
|---|---|---|
| ParserTables.YyTranslate | PA3/cool-parse.cc:567-598 | the entries of `yytranslate`: end of input stays 0, YYERRCODE becomes the `error` symbol, the declared tokens 258-283 follow it in order, and the unused codes 128-255, 257 and 284 are undefined |
| ParserTables.YyPact | PA3/cool-parse.cc:659-679 | the entries of `yypact`, one per state, each YYPACT_NINF or an offset into `yytable` |
| ParserTables.YyDefact | PA3/cool-parse.cc:684-704 | the entries of `yydefact`, one per state, each 0 or a rule number |
| ParserTables.YyPgoto | PA3/cool-parse.cc:707-712 | the entries of `yypgoto`, one per nonterminal, each an offset into `yytable` |
| ParserTables.YyDefgoto | PA3/cool-parse.cc:715-720 | the entries of `yydefgoto`, one per nonterminal, each a state or -1 for $accept |
| ParserTables.YyTable | PA3/cool-parse.cc:725-763 | the entries of `yytable`, each a state, the negated rule to reduce by, or YYTABLE_NINF |
| ParserTables.YyCheck | PA3/cool-parse.cc:765-803 | the entries of `yycheck`, each -1 or the symbol or state that guards the matching `yytable` slot |
| ParserTables.YyR1 | PA3/cool-parse.cc:830-840 | the entries of `yyr1`, the left-hand-side symbol of each rule |
| ParserTables.YyR2 | PA3/cool-parse.cc:843-853 | the entries of `yyr2`, the right-hand-side length of each rule, at most 10 |
| TableDecode.LookaheadToken | PA3/cool-parse.cc:1545-1555 | a lookahead code at or below 0 is end of input (both directions), a code above YYMAXUTOK (284) is YYUNDEFTOK (2), and only YYERRCODE (256) becomes the `error` token |
| TableDecode.TableAction | PA3/cool-parse.cc:1557-1586 | the yypact/yycheck/yytable lookup never indexes out of range; a reduction it names is never by rule 0 or 1; a shift never goes to the start state or to state 3 (the state after `program`), and it goes to YYFINAL only on end of input in state 3 |
| TableDecode.FinalSlots | PA3/cool-parse.cc:725-803 | no yytable slot with a valid check holds state 3, and the only one holding YYFINAL is slot 23, guarded by end of input |
| TableDecode.FinalPactBase | PA3/cool-parse.cc:659-679 | state 3 is the only state whose yypact base is 23 |
| TableDecode.DefaultAction | PA3/cool-parse.cc:1592-1597 | yydefact yields a syntax error or a reduction, never by rule 0, and outside YYFINAL never by the $accept rule |
| TableDecode.RuleLhs | PA3/cool-parse.cc:2012 | the left-hand side of every rule from 2 on is a nonterminal other than $accept, and it is `program` exactly for rule 2 |
| TableDecode.GotoState | PA3/cool-parse.cc:2012-2018 | the goto lookup stays in range and always yields a real state, never 0 nor YYFINAL; it yields state 3 exactly after a reduction to `program` |
| TableDecode.ExplicitGotos | PA3/cool-parse.cc:2014-2016 | no explicit goto leads to state 3 or YYFINAL, and `program` has no explicit goto |
| TableDecode.DefaultGotos | PA3/cool-parse.cc:715-720 | no default goto is YYFINAL, and only `program`'s default goto is state 3 |
| TableDecode.GotoSlotsArePositive | PA3/cool-parse.cc:2014-2016 | every yytable slot the goto reads after a matching yycheck holds a positive state |
| TableDecode.PgotoBases | PA3/cool-parse.cc:707-712 | no goto base is 1 or 317, the two offsets at which non-positive yytable slots sit, nor 23, the offset of the slot holding YYFINAL; `program`'s base is YYPACT_NINF |
| TableDecode.ErrorShift | PA3/cool-parse.cc:2124-2134 | the test of the recovery loop: a state whose yypact is not the default, whose `error` slot is in range with check YYTERROR and holds a positive entry, shifts `error` to that entry; `ErrorShiftIsErrorTarget` states its values |
| TableDecode.NonPositiveSlots | PA3/cool-parse.cc:725-803 | the only non-positive yytable entries with a valid check are -10 (reduce by rule 10) and YYTABLE_NINF (error) |
| TableDecode.ErrorShiftIsErrorTarget | PA3/cool-parse.cc:2124-2134 | the recovery loop's test equals the table action on the `error` token, and exactly states 0, 11, 19, 41, 52, 102, 143 and 163 can shift `error`, each to its listed target |
| TableDecode.ErrorCheckSlots | PA3/cool-parse.cc:765-803 | only yycheck slots 2, 4, 14 and 64 accept the `error` token |
| TableDecode.ErrorPactBases | PA3/cool-parse.cc:659-679 | the states whose yypact base leads to those four slots |
| Precedence.Decision | PA3/cool-parse.cc:1557-1597 | what the driver does in a state on a lookahead: the table action, or the default action when the state reads no lookahead or the table names none; never "use the default" itself |
| Precedence.OperatorStatesExist | PA3/cool-parse.cc:684-704 | states 79, 82, 83 and 114-120 reduce by default by isvoid, not, `~`, `<=`, `<`, `=`, `+`, `-`, `*` and `/` respectively, so each operator rule is the default reduction of at least one state |
| Precedence.OperatorStates | PA3/cool-parse.cc:684-704 | no state other than those reduces by default by an operator rule (64-73); with OperatorStatesExist, each operator rule is the default reduction of exactly one state |
| Precedence.ComparisonsAreNonAssociative | PA3/cool-parse.cc:659-803 | after `e1 < e2`, `e1 = e2` or `e1 <= e2`, another comparison operator is a syntax error, so `1 < 2 < 3` is rejected |
| Precedence.ArithmeticInsideComparison | PA3/cool-parse.cc:659-803 | after a comparison, `+`, `-`, `*` and `/` are shifted, so they bind tighter than the comparison |
| Precedence.ArithmeticSlots | PA3/cool-parse.cc:725-803 | the yytable slots the comparison states read for the four arithmetic operators are guarded by those operators and hold states |
| Precedence.ComparisonAfterArithmetic | PA3/cool-parse.cc:659-803 | after `e1 + e2`, `e1 - e2`, `e1 * e2` or `e1 / e2`, a comparison operator first reduces the arithmetic expression |
| Precedence.AdditionIsLeftAssociative | PA3/cool-parse.cc:659-803 | after `e1 + e2` or `e1 - e2`, another `+` or `-` reduces first, so `a - b + c` is `(a - b) + c` |
| Precedence.MultiplicationInsideAddition | PA3/cool-parse.cc:659-803 | after `e1 + e2` or `e1 - e2`, `*` and `/` are shifted, so `1 + 2 * 3` is `1 + (2 * 3)` |
| Precedence.MultiplicationReducesFirst | PA3/cool-parse.cc:659-803 | after `e1 * e2` or `e1 / e2`, every binary operator reduces first: `*` and `/` associate to the left and bind tightest among them |
| Precedence.PrefixOperatorsBindTightest | PA3/cool-parse.cc:659-803 | after `isvoid e` or `~e`, every binary operator reduces the unary expression first |
| Precedence.NotBindsLoosest | PA3/cool-parse.cc:659-803 | after `not e`, every binary operator is shifted, so `not a < b` is `not (a < b)` |
| SemanticActions.SemanticAction | PA3/cool-parse.cc:1614-1987 | the value of a rule's left-hand side from its right-hand-side values, the default `$$ = $1` where an action assigns nothing; its laws are the `ActionLaws` lemmas and `ActionKeepsValuesOk` |
| SemanticActions.DeclarationAction | PA3/cool-parse.cc:1621-1772 | the actions of rules 2-26: program, classes, features, formals, and expression lists, with the `error` productions yielding empty lists |
| SemanticActions.ExpressionAction | PA3/cool-parse.cc:1774-1987 | the actions of rules 27-73: the expression nodes, the `let` desugaring and case lists |
| SemanticActions.RootOf | PA3/cool-parse.cc:1621-1623 | rule 2 records a well-formed program in ast_root when its class list is well formed |
| SemanticActions.ResultsOf | PA3/cool-parse.cc:1627-1639 | rules 3 and 4 record a well-formed class list in parse_results |
| SemanticActions.ActionKeepsValuesOk | PA3/cool-parse.cc:1614-1987 | every semantic action over well-formed operand values yields a well-formed value: no case expression without a branch |
| ActionLaws.ClassWithoutParentInheritsObject | PA3/cool-parse.cc:1647-1658 | `class C { fs };` builds the class with parent `Object`, the same node as `class C inherits Object { fs };` |
| ActionLaws.AttributeWithoutInitializer | PA3/cool-parse.cc:1696-1706 | an attribute without initializer gets `no_expr`, the same node as one initialised with `no_expr` |
| ActionLaws.MethodWithoutFormals | PA3/cool-parse.cc:1708-1718 | `f() : T { e };` is the method with the empty formal list |
| ActionLaws.DispatchWithoutReceiverUsesSelf | PA3/cool-parse.cc:1816-1826 | `f(args)` is the dispatch on `object(self)` |
| ActionLaws.LetWithoutInitializer | PA3/cool-parse.cc:1858-1886 | a `let` binding without initializer is the binding initialised with `no_expr`, for the last binding and for an inner one |
| ActionLaws.ParenthesesAreTransparent | PA3/cool-parse.cc:1774-1776 | `( e )` yields the value of `e` unchanged |
| ActionLaws.UnitRulesKeepFirstValue | PA3/cool-parse.cc:1614 | the rules without an action of their own, and those that copy $1, yield their one operand's value |
| ActionLaws.ErrorProductionsYieldEmptyLists | PA3/cool-parse.cc:1641-1645 | the `error` productions of rules 5, 11 and 23 yield the empty class, feature and expression lists |
| ActionLaws.RecoveredBlockIsEmpty | PA3/cool-parse.cc:1846-1850 | `{ error ; }` yields a block with no expressions |
| ActionLaws.CaseListsAreNeverEmpty | PA3/cool-parse.cc:1900-1910 | every reduction to `case_list` yields a non-empty list |
| ActionLaws.ListRulesReduceToTheList | PA3/cool-parse.cc:830-853 | both rules of each of the six lists reduce to that list's nonterminal (class_list 47, feature_list 49, formal_list 53, the block's expression list 55, the actuals 56, case_list 68) and pop as many symbols as the right-hand sides the list lemmas use |
| ActionLaws.ParsedListsKeepSourceOrder | PA3/cool-parse.cc:1627-1639 | a list built by the first-element rule and then the append rule holds exactly its elements in source order, for all six list kinds |
| ActionLaws.SingleElement | PA3/cool-parse.cc:1660-1664 | each first-element rule yields the one-element list |
| ActionLaws.AppendElement | PA3/cool-parse.cc:1666-1670 | each append rule adds exactly one element at the end of its list |
| ActionLaws.BindingBuildsLet | PA3/cool-parse.cc:1858-1886 | the reduction of one `let` binding wraps what follows in one `let` node with the binding's line |
| ActionLaws.LetBindingsNestToTheRight | PA3/cool-parse.cc:1852-1890 | `let b1, ..., bn in e` builds `let b1 in (let b2 in ... (let bn in e))` |
| ActionLaws.LetExpressionIsTheNestedLets | PA3/cool-parse.cc:1852-1856 | `LET let` passes the nested `let` through unchanged |
| Driver.StoredValue | PA3/cool-parse.cc:1539-1543 | what yylval holds after the lexer delivers a token: the token's symbol, boolean or error message, or the previous value for a token without one |
| Driver.RecoveryPoint | PA3/cool-parse.cc:2124-2146 | the topmost stack position whose state can shift `error`, with no such state above it, or none on the whole stack |
| Driver.RecoveryPointIsNone | PA3/cool-parse.cc:2139-2140 | when the popping loop reaches the bottom, no state on the stack can shift `error` |
| Driver.RecoveryPointIsTop | PA3/cool-parse.cc:2124-2146 | where the popping loop stops is the recovery point |
| Driver.Parser.constructor | PA3/cool-parse.cc:1425-1437 | empty stacks holding state 0, no lookahead, no errors, no recorded tree |
| Driver.Parser.ReportError | PA3/cool-parse.cc:2224-2235 | yyerror adds one to omerrs and stops the run exactly when omerrs exceeds 50 |
| Driver.Parser.NewStateStep | PA3/cool-parse.cc:1441-1446 | pushing the state evens the three stacks |
| Driver.Parser.SetStateStep | PA3/cool-parse.cc:1448-1524 | the state goes on top; a full stack ends in memory exhaustion (code 2, through yyerror); YYFINAL accepts (code 0); otherwise yybackup |
| Driver.Parser.Lex | PA3/cool-parse.cc:1539-1543 | the next token's code, value and line, or end of input once the tokens are used up |
| Driver.Parser.ReadLookahead | PA3/cool-parse.cc:1537-1555 | a token is read only when the slot is empty, and then it is the next input token, its value stored in yylval and its line in yylloc, or end of input once the tokens are used up; a code at or below 0 becomes YYEOF; the result is the lookahead's translation |
| Driver.Parser.Act | PA3/cool-parse.cc:1557-1586 | the table action decides between yydefault, yyerrlab, a reduction and a shift, and only a shift changes the state; the action taken (or, on yydefault, the state's default action) is `Precedence.Decision`, so the precedence lemmas describe what the driver does |
| Driver.Parser.ShiftLookahead | PA3/cool-parse.cc:1570-1586 | a shift pushes exactly one value and one line, clears the lookahead and decrements a non-zero yyerrstatus; a shift into YYFINAL leaves the `program` value, from which ast_root was built, just below the top |
| Driver.Parser.DefaultStep | PA3/cool-parse.cc:1592-1597 | yydefault goes to yyerrlab or to the default reduction |
| Driver.Parser.ReduceStep | PA3/cool-parse.cc:1602-2018 | a reduction pops exactly yyr2[rule] entries off each stack and pushes the action's value and the first popped line, then goes to the goto state over the uncovered state; ast_root and parse_results are set only by rules 2, 3 and 4 |
| Driver.Parser.Reduction | PA3/cool-parse.cc:2001-2018 | the part of a reduction after the action: the right-hand side replaced by the value and line, the goto state entered, and in state 3 ast_root is the program built from the value on top |
| Driver.Parser.Record | PA3/cool-parse.cc:1621-1639 | rule 2 sets ast_root from the class list it pushes and rules 3 and 4 set parse_results, both well formed |
| Driver.Parser.GoTo | PA3/cool-parse.cc:2012-2018 | the goto state over the uncovered state; entering state 3 requires that ast_root is built from the value on top |
| Driver.Parser.PopAndPush | PA3/cool-parse.cc:2001-2006 | the stacks lose the right-hand side and gain one value and one line |
| Driver.Parser.ErrLabStep | PA3/cool-parse.cc:2026-2092 | yynerrs and omerrs grow by one exactly when yyerrstatus is 0; in the third recovery state, end of input aborts (code 1) and any other lookahead is discarded |
| Driver.Parser.ErrLab1Step | PA3/cool-parse.cc:2118-2164 | yyerrstatus becomes 3; the stacks are cut back to the recovery point and the `error` token is shifted there, or the parse aborts with an empty stack when there is none |
| Driver.Parser.ErrorShiftOf | PA3/cool-parse.cc:2124-2134 | the test of the popping loop on one state yields exactly that state's `error` shift target, if any |
| Driver.Parser.PopToRecoveryPoint | PA3/cool-parse.cc:2121-2146 | yyerrstatus becomes 3; the popping loop stops exactly at the recovery point, or at the bottom when there is none, recording the line of the last entry popped |
| Driver.Parser.ShiftErrorToken | PA3/cool-parse.cc:2150-2164 | the `error` token is shifted with yylval and the recorded line, into the state the tables give |
| Driver.Parser.Step | PA3/cool-parse.cc:1441-2164 | every label keeps the stacks in step and in bounds and every stacked value well formed, and in state 3 or YYFINAL ast_root is the program built from the value of `program` on the stack |
| Driver.Parser.Parse | PA3/cool-parse.cc:1368-2219 | yyparse returns only 0, 1 or 2; it accepts only in YYFINAL, with state 3 below it and ast_root the program built from the value and line of `program` in that entry (the result of the parse); it reports exhaustion only with a full stack; it stops the program exactly when omerrs exceeds 50; the stacks never grow past YYINITDEPTH, which is below YYMAXDEPTH |

## Left out

- Stack relocation (`YYSTACK_ALLOC`, `YYSTACK_RELOCATE`, `yyoverflow`) is left out. In this file `YYLTYPE` is `int`, so `YYLTYPE_IS_TRIVIAL` is not defined, and `YYSTACK_RELOCATE` is not compiled for C++. The parser therefore reaches `yyexhaustedlab` as soon as the stack holds `YYINITDEPTH` (200) entries. The model follows this code and bounds the stacks by 200, not by `YYMAXDEPTH` (10000).
- Debug tracing is left out, because it has no effect on the parse. This covers `YYDPRINTF`, `YY_SYMBOL_PRINT`, `YY_STACK_PRINT` and `YY_REDUCE_PRINT`.
- `yydestruct` is left out: it does nothing for this grammar.
- Of `yyerror`, only the `omerrs` counter is modelled. The message written to `cerr`, `print_cool_token` and the text printed before `exit(1)` are left out. The `exit(1)` itself becomes the outcome `TooManyErrors`.
- The lexer `yylex` is not part of this model. Its output is a finite token sequence, and end of input yields code 0 repeatedly. `curr_filename` is a constructor parameter.
- Interning in the string tables (`stringtab.h`) is not part of this model. A symbol is its text.
- The tree constructors of `cool-tree.h` are not part of this model. The `CoolAst` datatypes stand for them.
- The `node_lineno` global is left out. Each node carries its line as a field: the location of the first right-hand-side symbol, as the file's `YYLLOC_DEFAULT` gives it.
- Verbose error messages (`yysyntax_error`, `yytnamerr`) are left out, because `YYERROR_VERBOSE` is 0. The `yyerrorlab` label is left out, because no action invokes `YYERROR`.
- For the empty rules 10 and 26, `YYLLOC_DEFAULT` reads a location slot above the stack top. The model reads the same slot of its location array. Slots never written hold 0. Which line the source would find there is not specified.
- The union `YYSTYPE` is modelled as the datatype `Value`. An action that reads a member other than the one last written yields `Unset`; the source would reinterpret the bits.
- That a correct LALR automaton never pops more entries than the stack holds, and never reads the wrong union member, is not proved. The model makes both explicit: `Driver.Parser.ReduceStep` returns `StackUnderflow` in the first case, and actions yield `Unset` in the second.
- The precedence lemmas state single table decisions, not whole runs of the driver. For example, that `1 + 2 * 3` yields `plus(1, mul(2, 3))` follows from the shift after `1 + 2` together with the reductions, but it is not proved as one statement over `Parse`. The right associativity of `<-` and the precedence of `@` and `.` are not stated.
- Driver.Parser.Parse: does not prove that ast_root is set (`Some`) on acceptance. The value under state 3 comes from `class_list`; that it is a class list needs the union-member typing of the stack, which is not proved (see above). What is proved is that ast_root is the program built from that value.
- Driver.Parser.Parse: runs at most `fuel` steps and reports `OutOfFuel` when they are used up. Termination of `yyparse` itself is not proved.
- Driver.Parser.ReduceStep: does not state that the value pushed is the default `$$ = $1` for the rules without an action. This holds through `SemanticAction`, and `ActionLaws.UnitRulesKeepFirstValue` proves it.
- A Cool block is meant to hold at least one expression, but the source's error production `expr_list: error ';'` (rule 23) lets `{ error ; }` build an empty block. The model follows the source; `ActionLaws.RecoveredBlockIsEmpty` shows it.
