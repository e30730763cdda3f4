/** How yyparse reads its tables: translating a lookahead, looking up the action of a state,
    the goto after a reduction and the state that can shift the `error` token
    (PA3/cool-parse.cc:559-563, 1537-1597, 2011-2018, 2124-2134). */
module TableDecode {
  import opened ParserTables
  import opened Wrappers

  /** The state the parser enters after reducing to `program`, the only state from which
      shifting end of input reaches YYFINAL. */
  const ProgramState := 3
  /** The symbol number of the nonterminal `program`. */
  const ProgramSymbol := 46

  /** What the packed tables tell the driver to do next. */
  datatype Action =
    | ShiftTo(target: StateNum)
    | ReduceBy(rule: RuleNum)
    | SyntaxError
    | UseDefault

  /** The internal token of a lookahead code as yybackup computes it (PA3/cool-parse.cc:1545-1555):
      a code at or below YYEOF is end of input, a code above YYMAXUTOK is YYUNDEFTOK and any
      other code goes through YyTranslate. Only the code YYERRCODE becomes the `error` token. */
  function LookaheadToken(yychar: int): (t: TokenNum)
    ensures t == YYEOF <==> yychar <= YYEOF
    ensures yychar > YYMAXUTOK ==> t == YYUNDEFTOK
    ensures t == YYTERROR <==> yychar == YYERRCODE
  {
    if yychar <= YYEOF then YYEOF
    else if yychar <= YYMAXUTOK then YyTranslate(yychar)
    else YYUNDEFTOK
  }

  /** A state whose yypact entry is YYPACT_NINF decides without looking at the lookahead. */
  predicate DefaultOnly(state: StateNum) {
    YyPact(state) == YYPACT_NINF
  }

  /** The action yybackup takes in `state` on lookahead `token` (PA3/cool-parse.cc:1557-1586).
      A reduction the table names is always by a rule of the Cool grammar proper: never the
      placeholder rule 0 nor the $accept rule 1. No token is shifted into ProgramState, and
      YYFINAL is entered only by shifting end of input in ProgramState. */
  function TableAction(state: StateNum, token: TokenNum): (a: Action)
    requires !DefaultOnly(state)
    ensures a.ReduceBy? ==> 2 <= a.rule
    ensures a.ShiftTo? ==> a.target != 0 && a.target != ProgramState
    ensures a == ShiftTo(YYFINAL) ==> state == ProgramState && token == YYEOF
  {
    var i := YyPact(state) + token;
    if i < 0 || YYLAST < i || YyCheck(i) != token then UseDefault
    else
      var n := YyTable(i);
      if n <= 0 then
        NonPositiveSlots(i);
        if n == YYTABLE_NINF then SyntaxError else ReduceBy(-n)
      else
        FinalSlots(i);
        FinalPactBase(state);
        ShiftTo(n)
  }

  /** The action of yydefault (PA3/cool-parse.cc:1592-1597): the state's default reduction,
      or a syntax error when it has none. Outside the accepting state the default reduction
      is never the $accept rule. */
  function DefaultAction(state: StateNum): (a: Action)
    ensures a.SyntaxError? || a.ReduceBy?
    ensures a.ReduceBy? ==> a.rule != 0
    ensures state != YYFINAL && a.ReduceBy? ==> 2 <= a.rule
  {
    if YyDefact(state) == 0 then SyntaxError else ReduceBy(YyDefact(state))
  }

  /** The symbol number of the left-hand side of a grammar rule is a nonterminal other than
      $accept, and it is `program` for rule 2 only. */
  function RuleLhs(rule: RuleNum): (lhs: SymbolNum)
    requires 2 <= rule
    ensures YYNTOKENS < lhs
    ensures lhs == ProgramSymbol <==> rule == 2
  {
    YyR1(rule)
  }

  /** The state entered after a reduction to nonterminal `lhs` uncovers `below` on the stack
      (PA3/cool-parse.cc:2011-2018): the YyTable entry at YyPgoto + below when YyCheck
      confirms it, otherwise the nonterminal's default goto. It is never the start state nor
      YYFINAL, and it is ProgramState exactly after a reduction to `program`. */
  function GotoState(lhs: SymbolNum, below: StateNum): (s: StateNum)
    requires YYNTOKENS < lhs
    ensures s != 0 && s != YYFINAL
    ensures s == ProgramState <==> lhs == ProgramSymbol
  {
    var nt := lhs - YYNTOKENS;
    var i := YyPgoto(nt) + below;
    if 0 <= i <= YYLAST && YyCheck(i) == below then
      GotoSlotsArePositive(nt, below);
      ExplicitGotos(nt, below);
      YyTable(i)
    else
      DefaultGotos(nt);
      YyDefgoto(nt)
  }

  /** The default gotos: only `program` goes to ProgramState, and none goes to YYFINAL. */
  lemma DefaultGotos(nt: int)
    requires 1 <= nt < YYNNTS
    ensures YyDefgoto(nt) != YYFINAL
    ensures YyDefgoto(nt) == ProgramState <==> nt == ProgramSymbol - YYNTOKENS
  {
  }

  /** No YyTable slot with a valid check holds ProgramState, and the one holding YYFINAL is
      slot 23, the shift of end of input. */
  lemma FinalSlots(i: int)
    requires 0 <= i <= YYLAST && 0 <= YyCheck(i)
    ensures YyTable(i) != ProgramState
    ensures YyTable(i) == YYFINAL ==> i == 23 && YyCheck(i) == YYEOF
  {
  }

  /** ProgramState is the only state whose yypact entry is 23. */
  lemma FinalPactBase(state: StateNum)
    ensures YyPact(state) == 23 ==> state == ProgramState
  {
  }

  /** The state that `state` goes to on the `error` token, if any: the test of the
      error-recovery loop (PA3/cool-parse.cc:2124-2134). */
  function ErrorShift(state: StateNum): Option<StateNum> {
    if DefaultOnly(state) then None
    else
      var i := YyPact(state) + YYTERROR;
      if 0 <= i <= YYLAST && YyCheck(i) == YYTERROR && 0 < YyTable(i) then Some(YyTable(i))
      else None
  }

  /** The error shifts the tables hold: the start state and the states inside a feature
      list, a block and a `let` binding list recover, each to the state after its `error`
      production's `error` symbol. */
  function ErrorTarget(state: StateNum): Option<StateNum> {
    match state
    case 0 => Some(1)
    case 11 => Some(13)
    case 19 => Some(13)
    case 41 => Some(73)
    case 52 => Some(84)
    case 102 => Some(73)
    case 143 => Some(73)
    case 163 => Some(73)
    case _ => None
  }

  /** The error-recovery test agrees with the ordinary table action on the `error` symbol,
      and only the states ErrorTarget lists can shift `error`. */
  lemma ErrorShiftIsErrorTarget(state: StateNum)
    ensures ErrorShift(state) == ErrorTarget(state)
    ensures ErrorShift(state).Some? <==> !DefaultOnly(state) && TableAction(state, YYTERROR).ShiftTo?
    ensures ErrorShift(state).Some? ==> TableAction(state, YYTERROR) == ShiftTo(ErrorShift(state).value)
  {
    var i := YyPact(state) + YYTERROR;
    if !DefaultOnly(state) && 0 <= i <= YYLAST && YyCheck(i) == YYTERROR {
      ErrorCheckSlots(i);
      ErrorPactBases(state);
    }
  }

  /** Only four YyCheck slots accept the `error` token. */
  lemma ErrorCheckSlots(i: int)
    requires 0 <= i <= YYLAST && YyCheck(i) == YYTERROR
    ensures i == 2 || i == 4 || i == 14 || i == 64
  {
  }

  /** The states whose yypact entry leads to one of the four `error` slots. */
  lemma ErrorPactBases(state: StateNum)
    ensures YyPact(state) == 1 ==> state == 11 || state == 19
    ensures YyPact(state) == 3 ==> state == 41 || state == 102 || state == 143 || state == 163
    ensures YyPact(state) == 13 ==> state == 0
    ensures YyPact(state) == 63 ==> state == 52
  {
  }

  /** Every YyTable slot that a goto reads holds a positive state. The only slots that are
      not positive yet carry a valid check (41, 344, 346, 347) lie 1 or 317 past their check,
      and no nonterminal has a YyPgoto of 1 or 317. */
  lemma GotoSlotsArePositive(nt: int, below: StateNum)
    requires 1 <= nt < YYNNTS
    requires 0 <= YyPgoto(nt) + below <= YYLAST && YyCheck(YyPgoto(nt) + below) == below
    ensures 0 < YyTable(YyPgoto(nt) + below)
  {
    var i := YyPgoto(nt) + below;
    PgotoBases(nt);
    if YyTable(i) <= 0 {
      NonPositiveSlots(i);
    }
  }

  /** No explicit goto leads to ProgramState or YYFINAL, and `program` has none: the one slot
      holding YYFINAL lies 23 past its check, and no nonterminal has a YyPgoto of 23. */
  lemma ExplicitGotos(nt: int, below: StateNum)
    requires 1 <= nt < YYNNTS
    requires 0 <= YyPgoto(nt) + below <= YYLAST && YyCheck(YyPgoto(nt) + below) == below
    ensures YyTable(YyPgoto(nt) + below) != YYFINAL
    ensures YyTable(YyPgoto(nt) + below) != ProgramState
    ensures nt != ProgramSymbol - YYNTOKENS
  {
    PgotoBases(nt);
    FinalSlots(YyPgoto(nt) + below);
  }

  /** No nonterminal's goto part starts 1, 23 or 317 slots into YyTable, and `program` has
      no explicit goto at all. */
  lemma PgotoBases(nt: int)
    requires 0 <= nt < YYNNTS
    ensures YyPgoto(nt) != 1 && YyPgoto(nt) != 317 && YyPgoto(nt) != 23
    ensures nt == ProgramSymbol - YYNTOKENS ==> YyPgoto(nt) == YYPACT_NINF
  {
  }

  /** The slots of YyTable that are not positive yet carry a valid check: slot 41 reduces by
      rule 10, slots 344, 346 and 347 are syntax errors. */
  lemma NonPositiveSlots(i: int)
    requires 0 <= i <= YYLAST && 0 <= YyCheck(i) && YyTable(i) <= 0
    ensures i - YyCheck(i) == 1 || i - YyCheck(i) == 317
    ensures YyTable(i) == -10 || YyTable(i) == YYTABLE_NINF
  {
  }
}
