/** The driver of the parser, yyparse (PA3/cool-parse.cc:1368-2219): a loop over the labels
    yynewstate, yysetstate, yybackup, yydefault, yyreduce, yyerrlab and yyerrlab1 that moves
    three parallel stacks of states, semantic values and line locations, together with the
    error counter of yyerror (PA3/cool-parse.cc:2224-2235). */
module Driver {
  import opened ParserTables
  import opened Wrappers
  import opened TableDecode
  import Precedence
  import opened CoolAst
  import opened SemanticActions
  import ActionLaws

  /** What the lexer stores in yylval for a token; tokens without a value leave it as it was. */
  datatype TokenValue =
    | NoValue
    | SymbolToken(symbol: Symbol)
    | BooleanToken(boolean: bool)
    | ErrorToken(message: string)

  /** One token as the lexer delivers it: the code it returns, what it stores in yylval and
      the line number (curr_lineno, which is yylloc) after reading it. */
  datatype Lexeme = Lexeme(code: int, value: TokenValue, line: int)

  /** How a run of the parser ends. `Returned` carries yyparse's result; `TooManyErrors` is
      the `exit(1)` of yyerror; `StackUnderflow` is a reduction that would pop more entries
      than the stack holds, which the source does not guard against; `OutOfFuel` ends a run
      cut short by the step bound of the model. */
  datatype Outcome =
    | Returned(code: int)
    | TooManyErrors
    | StackUnderflow
    | OutOfFuel

  /** yyparse's results (PA3/cool-parse.cc:2170-2188). */
  const ACCEPTED := 0
  const ABORTED := 1
  const EXHAUSTED := 2

  /** The number of errors yyerror tolerates before it stops the program
      (PA3/cool-parse.cc:2234). */
  const MAX_ERRORS := 50

  /** The labels of yyparse that the loop moves between. */
  datatype Label =
    | NewState
    | SetState
    | Backup
    | Default
    | Reduce(rule: RuleNum)
    | ErrLab
    | ErrLab1
    | Finished(outcome: Outcome)

  /** The value yylval holds after the lexer delivered `t` over `previous`. */
  function StoredValue(previous: Value, t: TokenValue): Value {
    match t
    case NoValue => previous
    case SymbolToken(s) => SymbolValue(s)
    case BooleanToken(b) => BooleanValue(b)
    case ErrorToken(m) => ErrorMsgValue(m)
  }

  /** The topmost position of `states` whose state can shift the `error` token: where the
      popping loop of yyerrlab1 stops, or None when it pops everything
      (PA3/cool-parse.cc:2124-2146). */
  function RecoveryPoint(states: seq<StateNum>): (k: Option<nat>)
    ensures k.Some? ==> k.value < |states| && ErrorTarget(states[k.value]).Some?
    ensures k.Some? ==> forall j | k.value < j < |states| :: ErrorTarget(states[j]).None?
    ensures k.None? ==> forall j | 0 <= j < |states| :: ErrorTarget(states[j]).None?
    decreases |states|
  {
    if |states| == 0 then None
    else if ErrorTarget(states[|states| - 1]).Some? then Some(|states| - 1)
    else RecoveryPoint(states[..|states| - 1])
  }

  class Parser {
    /** The state, value and location stacks (yyssa, yyvsa, yylsa), YYINITDEPTH entries each. */
    const ss: array<StateNum>
    const vs: array<Value>
    const ls: array<int>
    /** The stack pointers yyssp, yyvsp and yylsp as indices into the stacks. */
    var sp: int
    var vp: int
    var lp: int
    /** yystate, the current state. */
    var state: StateNum
    /** yychar: the lookahead's token code, or YYEMPTY when there is none. */
    var yychar: int
    /** yylval and yylloc: the lookahead's value and line. */
    var lval: Value
    var lloc: int
    /** yyerrstatus: the number of tokens still to shift before errors are reported again. */
    var errStatus: int
    /** yynerrs, the syntax errors reported, and omerrs, the calls of yyerror. */
    var nerrs: int
    var omerrs: int
    /** yyerror_range[1]: the line of the first symbol the `error` token stands for. */
    var errorLine: int
    /** The tokens the lexer delivers, and how many it has delivered. */
    const input: seq<Lexeme>
    var pos: int
    /** ast_root and parse_results. */
    var astRoot: Option<Program>
    var parseResults: Option<seq<Class>>
    /** curr_filename's entry in the string table. */
    const filename: Symbol

    /** What holds at every label: the stacks' sizes, the counters' ranges, and every value
        on the stack or in yylval and every recorded tree is well formed. */
    predicate Common()
      reads this, vs
    {
      ss.Length == YYINITDEPTH && vs.Length == YYINITDEPTH && ls.Length == YYINITDEPTH &&
      Counters() && TreesOk()
    }

    /** The recovery countdown, the error counters and the input position are in range. */
    predicate Counters()
      reads this`errStatus, this`nerrs, this`omerrs, this`pos
    {
      0 <= errStatus <= 3 && 0 <= nerrs <= omerrs && 0 <= pos <= |input|
    }

    /** Every value on the stack or in yylval and every recorded tree is well formed. */
    predicate TreesOk()
      reads this`lval, this`astRoot, this`parseResults, vs
    {
      ValueOk(lval) && (forall i | 0 <= i < vs.Length :: ValueOk(vs[i])) &&
      (astRoot.Some? ==> ProgramOk(astRoot.value)) &&
      (parseResults.Some? ==> ClassesOk(parseResults.value))
    }

    /** The three stacks have the same height and the current state is on top of them. */
    predicate Even()
      reads this`sp, this`vp, this`lp, this`state, this`omerrs, ss
    {
      ss.Length == YYINITDEPTH && vs.Length == YYINITDEPTH && ls.Length == YYINITDEPTH &&
      0 <= sp < YYINITDEPTH - 1 && vp == sp && lp == sp &&
      state == ss[sp] && omerrs <= MAX_ERRORS
    }

    /** ast_root is the program built from the value and line at position `t` of the stacks. */
    predicate RootAt(t: int)
      reads this`astRoot, vs, ls
    {
      0 <= t < vs.Length && t < ls.Length && astRoot == RootOf(vs[t], ls[t])
    }

    /** ProgramState and YYFINAL are reached only after ast_root was recorded from the value of
        `program`: in ProgramState that value is at `top` of the stacks, in YYFINAL it is just
        below, over ProgramState. */
    predicate ProgramRecorded(top: int)
      reads this`state, this`astRoot, ss, vs, ls
    {
      (state == ProgramState ==> RootAt(top)) &&
      (state == YYFINAL ==> 1 <= top && top - 1 < ss.Length && ss[top - 1] == ProgramState && RootAt(top - 1))
    }

    /** What holds on entering each label. At yynewstate the value and location stacks are
        one entry ahead of the state stack. */
    predicate At(position: Label)
      reads this, ss, vs, ls
    {
      match position
      case NewState =>
        0 <= sp && sp + 1 < YYINITDEPTH && vp == sp + 1 && lp == sp + 1 && omerrs <= MAX_ERRORS &&
        ProgramRecorded(vp)
      case SetState =>
        0 <= sp < YYINITDEPTH && vp == sp && lp == sp && omerrs <= MAX_ERRORS && ProgramRecorded(vp)
      case Backup => Even() && state != YYFINAL && ProgramRecorded(sp)
      case Default => Even() && state != YYFINAL && ProgramRecorded(sp)
      case Reduce(rule) => Even() && 2 <= rule
      case ErrLab => Even()
      case ErrLab1 => Even()
      case Finished(outcome) =>
        ss.Length == YYINITDEPTH && 0 <= sp < YYINITDEPTH &&
        (outcome == TooManyErrors <==> omerrs > MAX_ERRORS) &&
        (outcome.Returned? ==> outcome.code == ACCEPTED || outcome.code == ABORTED || outcome.code == EXHAUSTED) &&
        (outcome == Returned(ACCEPTED) ==>
           state == YYFINAL && ss[sp] == YYFINAL && 1 <= sp && ss[sp - 1] == ProgramState && RootAt(sp - 1)) &&
        (outcome == Returned(EXHAUSTED) ==> sp == YYINITDEPTH - 1)
    }

    /** The start of yyparse: empty stacks holding state 0, no lookahead, no errors
        (PA3/cool-parse.cc:1425-1436). */
    constructor (input: seq<Lexeme>, filename: Symbol, firstLine: int)
      ensures Common() && At(SetState)
      ensures this.input == input && this.filename == filename && pos == 0
      ensures sp == 0 && state == 0 && yychar == YYEMPTY && errStatus == 0 && nerrs == 0 && omerrs == 0
      ensures ls[0] == firstLine && astRoot.None? && parseResults.None?
    {
      ss := new StateNum[YYINITDEPTH](_ => 0);
      vs := new Value[YYINITDEPTH](_ => Unset);
      ls := new int[YYINITDEPTH](i => if i == 0 then firstLine else 0);
      sp, vp, lp := 0, 0, 0;
      state := 0;
      yychar := YYEMPTY;
      lval := Unset;
      lloc := firstLine;
      errStatus, nerrs, omerrs := 0, 0, 0;
      errorLine := firstLine;
      this.input := input;
      pos := 0;
      astRoot, parseResults := None, None;
      this.filename := filename;
    }

    /** yyerror: counts the error and stops the program once more than MAX_ERRORS were
        counted (PA3/cool-parse.cc:2224-2235). */
    method ReportError() returns (stop: bool)
      modifies this`omerrs
      ensures omerrs == old(omerrs) + 1
      ensures stop <==> omerrs > MAX_ERRORS
    {
      omerrs := omerrs + 1;
      stop := omerrs > MAX_ERRORS;
    }

    /** yynewstate: pushing the state evens the stacks (PA3/cool-parse.cc:1441-1446). */
    method NewStateStep() returns (next: Label)
      requires Common() && At(NewState)
      modifies this`sp
      ensures sp == old(sp) + 1 && next == SetState
      ensures Common() && At(next)
    {
      sp := sp + 1;
      next := SetState;
    }

    /** yysetstate: the state goes on top of the state stack. A full stack exhausts the
        parser's memory, since the stacks cannot be relocated here; the accepting state
        accepts (PA3/cool-parse.cc:1448-1524). */
    method SetStateStep() returns (next: Label)
      requires Common() && At(SetState)
      modifies ss, this`omerrs
      ensures ss[..] == old(ss[..])[sp := state]
      ensures sp == YYINITDEPTH - 1 ==>
        omerrs == old(omerrs) + 1 &&
        next == Finished(if omerrs > MAX_ERRORS then TooManyErrors else Returned(EXHAUSTED))
      ensures sp < YYINITDEPTH - 1 ==>
        omerrs == old(omerrs) &&
        next == (if state == YYFINAL then Finished(Returned(ACCEPTED)) else Backup)
      ensures Common() && At(next)
    {
      ss[sp] := state;
      if sp >= YYINITDEPTH - 1 {
        var stop := ReportError();
        next := Finished(if stop then TooManyErrors else Returned(EXHAUSTED));
      } else if state == YYFINAL {
        next := Finished(Returned(ACCEPTED));
      } else {
        next := Backup;
      }
    }

    /** yylex: the next token, or end of input (code 0) once the tokens are used up. */
    method Lex()
      requires 0 <= pos <= |input|
      modifies this`yychar, this`lval, this`lloc, this`pos
      ensures old(pos) < |input| ==>
        var t := input[old(pos)];
        pos == old(pos) + 1 && yychar == t.code && lval == StoredValue(old(lval), t.value) && lloc == t.line
      ensures old(pos) == |input| ==> pos == old(pos) && yychar == YYEOF && lval == old(lval) && lloc == old(lloc)
    {
      if pos < |input| {
        var t := input[pos];
        yychar, lval, lloc := t.code, StoredValue(lval, t.value), t.line;
        pos := pos + 1;
      } else {
        yychar := YYEOF;
      }
    }

    /** The part of yybackup that gets the lookahead: a token is read only when there is none,
        a code at or below YYEOF becomes YYEOF, and the result is the token's internal number
        (PA3/cool-parse.cc:1541-1555). */
    method ReadLookahead() returns (token: TokenNum)
      requires Common()
      modifies this`yychar, this`lval, this`lloc, this`pos
      ensures Common()
      ensures yychar != YYEMPTY && YYEOF <= yychar && token == LookaheadToken(yychar)
      ensures old(yychar) != YYEMPTY ==>
        pos == old(pos) && lval == old(lval) && lloc == old(lloc) &&
        yychar == (if old(yychar) <= YYEOF then YYEOF else old(yychar))
      ensures old(yychar) == YYEMPTY && old(pos) < |input| ==>
        var t := input[old(pos)];
        pos == old(pos) + 1 && yychar == (if t.code <= YYEOF then YYEOF else t.code) &&
        lval == StoredValue(old(lval), t.value) && lloc == t.line
      ensures old(yychar) == YYEMPTY && old(pos) == |input| ==>
        pos == old(pos) && yychar == YYEOF && lval == old(lval) && lloc == old(lloc)
    {
      if yychar == YYEMPTY {
        Lex();
      }
      if yychar <= YYEOF {
        yychar := YYEOF;
      }
      token := LookaheadToken(yychar);
    }

    /** The rest of yybackup: the action the tables give for the lookahead. A shift pushes the
        lookahead's value and line, consumes the lookahead and counts one token toward the end
        of error recovery (PA3/cool-parse.cc:1557-1586). */
    method Act(token: TokenNum) returns (next: Label)
      requires Common() && At(Backup) && !DefaultOnly(state)
      modifies vs, ls, this`vp, this`lp, this`state, this`yychar, this`errStatus
      ensures Common() && At(next)
      ensures var a := TableAction(old(state), token);
        (a.UseDefault? ==> next == Default) &&
        (a.SyntaxError? ==> next == ErrLab) &&
        (a.ReduceBy? ==> next == Reduce(a.rule)) &&
        (!a.ShiftTo? ==> unchanged(this) && unchanged(vs) && unchanged(ls)) &&
        (a.ShiftTo? ==>
           next == NewState && state == a.target && yychar == YYEMPTY &&
           errStatus == (if old(errStatus) == 0 then 0 else old(errStatus) - 1) &&
           vp == old(vp) + 1 && lp == old(lp) + 1 &&
           vs[..] == old(vs[..])[vp := lval] && ls[..] == old(ls[..])[lp := lloc])
      ensures next != Default ==> Precedence.Decision(old(state), token) == TableAction(old(state), token)
      ensures next == Default ==> Precedence.Decision(old(state), token) == DefaultAction(old(state))
    {
      match TableAction(state, token)
      case UseDefault =>
        next := Default;
      case SyntaxError =>
        next := ErrLab;
      case ReduceBy(rule) =>
        next := Reduce(rule);
      case ShiftTo(target) =>
        ShiftLookahead(target);
        next := NewState;
    }

    /** The shift of yybackup (PA3/cool-parse.cc:1577-1586): one token fewer to go in error
        recovery, the lookahead consumed, its value and line pushed. */
    method ShiftLookahead(target: StateNum)
      requires Common() && Even() && target != ProgramState
      requires target == YYFINAL ==> state == ProgramState && RootAt(sp)
      modifies vs, ls, this`vp, this`lp, this`state, this`yychar, this`errStatus
      ensures Common() && At(NewState)
      ensures state == target && yychar == YYEMPTY
      ensures errStatus == (if old(errStatus) == 0 then 0 else old(errStatus) - 1)
      ensures vp == old(vp) + 1 && lp == old(lp) + 1
      ensures vs[..] == old(vs[..])[vp := lval] && ls[..] == old(ls[..])[lp := lloc]
    {
      if errStatus != 0 {
        errStatus := errStatus - 1;
      }
      yychar := YYEMPTY;
      state := target;
      vp, lp := vp + 1, lp + 1;
      vs[vp] := lval;
      ls[lp] := lloc;
    }

    /** yydefault: the state's default reduction, or a syntax error when it has none
        (PA3/cool-parse.cc:1592-1597). */
    method DefaultStep() returns (next: Label)
      requires Common() && At(Default)
      ensures Common() && At(next)
      ensures DefaultAction(state).SyntaxError? ==> next == ErrLab
      ensures DefaultAction(state).ReduceBy? ==> next == Reduce(DefaultAction(state).rule)
    {
      match DefaultAction(state)
      case SyntaxError =>
        next := ErrLab;
      case ReduceBy(rule) =>
        next := Reduce(rule);
    }

    /** yyreduce: pops the rule's right-hand side off all three stacks, pushes the value the
        semantic action computes with the line of the first popped symbol, and goes to the
        state the goto tables give for the rule's left-hand side over the uncovered state
        (PA3/cool-parse.cc:1602-2018). */
    method ReduceStep(rule: RuleNum) returns (next: Label)
      requires Common() && At(Reduce(rule))
      modifies vs, ls, this`sp, this`vp, this`lp, this`state, this`astRoot, this`parseResults
      ensures Common() && At(next)
      ensures old(sp) < YyR2(rule) ==>
        next == Finished(StackUnderflow) && unchanged(this) && unchanged(vs) && unchanged(ls)
      ensures YyR2(rule) <= old(sp) ==>
        var len := YyR2(rule);
        var rhs := old(vs[sp + 1 - len .. sp + 1]);
        var line := old(ls[sp + 1 - len]);
        next == NewState && sp == old(sp) - len && vp == sp + 1 && lp == sp + 1 &&
        vs[..] == old(vs[..])[vp := SemanticAction(rule, rhs, line, filename)] &&
        ls[..] == old(ls[..])[lp := line] &&
        state == GotoState(RuleLhs(rule), ss[sp]) &&
        astRoot == (if rule == 2 then RootOf(rhs[0], line) else old(astRoot)) &&
        parseResults == (if rule == 3 || rule == 4 then ResultsOf(vs[vp]) else old(parseResults))
    {
      var len := YyR2(rule);
      if sp < len {
        return Finished(StackUnderflow);
      }
      var rhs := vs[sp + 1 - len .. sp + 1];
      var line := ls[sp + 1 - len];
      StackSliceOk(sp + 1 - len, sp + 1);
      ActionKeepsValuesOk(rule, rhs, line, filename);
      var value := SemanticAction(rule, rhs, line, filename);
      if rule == 2 {
        ActionLaws.UnitRulesKeepFirstValue(rule, rhs, line, filename);
      }
      Reduction(rule, value, line);
      next := NewState;
    }

    /** The rest of yyreduce once the semantic action computed `value`: the trees are
        recorded, the right-hand side is replaced by `value` and `line`, and the goto is taken. */
    method Reduction(rule: RuleNum, value: Value, line: int)
      requires Common() && Even() && 2 <= rule && YyR2(rule) <= sp && ValueOk(value)
      requires rule == 2 ==> value == vs[sp]
      modifies vs, ls, this`sp, this`vp, this`lp, this`state, this`astRoot, this`parseResults
      ensures Common() && At(NewState) && sp == old(sp) - YyR2(rule)
      ensures vs[..] == old(vs[..])[vp := value] && ls[..] == old(ls[..])[lp := line]
      ensures state == GotoState(RuleLhs(rule), ss[sp])
      ensures astRoot == (if rule == 2 then RootOf(value, line) else old(astRoot))
      ensures parseResults == (if rule == 3 || rule == 4 then ResultsOf(value) else old(parseResults))
    {
      Record(rule, value, line);
      PopAndPush(YyR2(rule), value, line);
      GoTo(RuleLhs(rule));
    }

    /** The goto that ends yyreduce (PA3/cool-parse.cc:2012-2018): the state for `lhs` over
        the state now on top. Only a reduction to `program` reaches ProgramState, and it has
        recorded ast_root from the value it pushed. */
    method GoTo(lhs: SymbolNum)
      requires YYNTOKENS < lhs
      requires 0 <= sp && sp + 1 < YYINITDEPTH && vp == sp + 1 && lp == sp + 1 && omerrs <= MAX_ERRORS
      requires ss.Length == YYINITDEPTH && (lhs == ProgramSymbol ==> RootAt(vp))
      modifies this`state
      ensures state == GotoState(lhs, ss[sp]) && At(NewState)
    {
      state := GotoState(lhs, ss[sp]);
    }

    /** Every slice of the value stack holds well-formed values. */
    lemma StackSliceOk(lo: int, hi: int)
      requires TreesOk() && 0 <= lo <= hi <= vs.Length
      ensures ValuesOk(vs[lo..hi])
    {
      forall k | 0 <= k < hi - lo ensures ValueOk(vs[lo..hi][k]) {
        assert vs[lo..hi][k] == vs[lo + k];
      }
    }

    /** The trees a reduction records from the value it pushes: ast_root after the start
        rule, whose value is its class list, and parse_results after a class list
        (PA3/cool-parse.cc:1621-1637). */
    method Record(rule: RuleNum, value: Value, line: int)
      requires TreesOk() && ValueOk(value)
      modifies this`astRoot, this`parseResults
      ensures TreesOk()
      ensures astRoot == (if rule == 2 then RootOf(value, line) else old(astRoot))
      ensures parseResults == (if rule == 3 || rule == 4 then ResultsOf(value) else old(parseResults))
    {
      if rule == 2 {
        astRoot := RootOf(value, line);
      } else if rule == 3 || rule == 4 {
        parseResults := ResultsOf(value);
      }
    }

    /** Pops `len` entries off the three stacks and pushes `value` and `line`
        (PA3/cool-parse.cc:2001-2006). */
    method PopAndPush(len: int, value: Value, line: int)
      requires Common() && Even() && 0 <= len <= sp && ValueOk(value)
      modifies vs, ls, this`sp, this`vp, this`lp
      ensures Common() && sp == old(sp) - len && vp == sp + 1 && lp == sp + 1
      ensures vs[..] == old(vs[..])[vp := value] && ls[..] == old(ls[..])[lp := line]
    {
      sp, vp, lp := sp - len, vp - len + 1, lp - len + 1;
      vs[vp] := value;
      ls[lp] := line;
    }

    /** yyerrlab: a syntax error is reported only when recovery is not under way; right after
        a recovery a lookahead that still fails is discarded, or the parse aborts at end of
        input (PA3/cool-parse.cc:2026-2092). */
    method ErrLabStep() returns (next: Label)
      requires Common() && At(ErrLab)
      modifies this`nerrs, this`omerrs, this`errorLine, this`yychar
      ensures Common() && At(next)
      ensures old(errStatus) == 0 ==> nerrs == old(nerrs) + 1 && omerrs == old(omerrs) + 1
      ensures old(errStatus) != 0 ==> nerrs == old(nerrs) && omerrs == old(omerrs)
      ensures omerrs > MAX_ERRORS ==> next == Finished(TooManyErrors)
      ensures omerrs <= MAX_ERRORS ==>
        errorLine == lloc &&
        (errStatus == 3 && old(yychar) == YYEOF ==> next == Finished(Returned(ABORTED)) && yychar == YYEOF) &&
        (errStatus == 3 && old(yychar) > YYEOF ==> next == ErrLab1 && yychar == YYEMPTY) &&
        (errStatus != 3 || old(yychar) < YYEOF ==> next == ErrLab1 && yychar == old(yychar))
    {
      if errStatus == 0 {
        nerrs := nerrs + 1;
        var stop := ReportError();
        if stop {
          return Finished(TooManyErrors);
        }
      }
      errorLine := lloc;
      if errStatus == 3 {
        if yychar <= YYEOF {
          if yychar == YYEOF {
            return Finished(Returned(ABORTED));
          }
        } else {
          yychar := YYEMPTY;
        }
      }
      next := ErrLab1;
    }

    /** yyerrlab1: pops states until one can shift the `error` token and shifts it there, the
        `error` token getting yylval and the line of the last symbol popped; when no state on
        the stack can, the parse aborts. Recovery then lasts three shifted tokens
        (PA3/cool-parse.cc:2118-2164). */
    method ErrLab1Step() returns (next: Label)
      requires Common() && At(ErrLab1)
      modifies vs, ls, this`errStatus, this`sp, this`vp, this`lp, this`state, this`errorLine
      ensures Common() && At(next)
      ensures errStatus == 3
      ensures RecoveryPoint(old(ss[..sp + 1])).None? ==>
        next == Finished(Returned(ABORTED)) && sp == 0 && unchanged(vs) && unchanged(ls)
      ensures RecoveryPoint(old(ss[..sp + 1])).Some? ==>
        next == NewState && sp == RecoveryPoint(old(ss[..sp + 1])).value &&
        state == ErrorTarget(ss[sp]).value && vp == sp + 1 && lp == sp + 1
      ensures next == NewState ==>
        vs[..] == old(vs[..])[vp := old(lval)] && ls[..] == old(ls[..])[lp := errorLine]
      ensures errorLine == if sp == old(sp) then old(errorLine) else old(ls[..])[sp + 1]
    {
      var found := PopToRecoveryPoint();
      if !found {
        return Finished(Returned(ABORTED));
      }
      ShiftErrorToken();
      next := NewState;
    }

    /** The start of yyerrlab1 (PA3/cool-parse.cc:2121-2146): recovery is set to last three
        shifted tokens, then the stacks are popped until the state on top can shift `error`,
        recording the line of each popped entry; the loop stops at the bottom when no state on
        the stack can. */
    method PopToRecoveryPoint() returns (found: bool)
      requires Even()
      modifies this`errStatus, this`sp, this`vp, this`lp, this`state, this`errorLine
      ensures errStatus == 3
      ensures Even() && sp <= old(sp)
      ensures var k := RecoveryPoint(old(ss[..sp + 1]));
        (found <==> k.Some?) && (found ==> sp == k.value) && (!found ==> sp == 0)
      ensures found ==> ErrorTarget(state).Some?
      ensures errorLine == if sp == old(sp) then old(errorLine) else ls[sp + 1]
    {
      errStatus := 3;
      ghost var states := ss[..sp + 1];
      var shift := ErrorShiftOf(state);
      while shift.None?
        invariant Even() && sp <= old(sp) && errStatus == 3
        invariant states == ss[..old(sp) + 1]
        invariant shift == ErrorTarget(state)
        invariant forall j | sp < j <= old(sp) :: ErrorTarget(states[j]).None?
        invariant errorLine == if sp == old(sp) then old(errorLine) else ls[sp + 1]
        decreases sp
      {
        if sp == 0 {
          RecoveryPointIsNone(states);
          return false;
        }
        errorLine := ls[lp];
        sp, vp, lp := sp - 1, vp - 1, lp - 1;
        state := ss[sp];
        shift := ErrorShiftOf(state);
      }
      RecoveryPointIsTop(states, sp);
      found := true;
    }

    /** The test of the popping loop for one state: where it shifts `error`, if anywhere
        (PA3/cool-parse.cc:2124-2134). */
    static method ErrorShiftOf(s: StateNum) returns (target: Option<StateNum>)
      ensures target == ErrorTarget(s)
    {
      ErrorShiftIsErrorTarget(s);
      target := ErrorShift(s);
    }

    /** The end of yyerrlab1 (PA3/cool-parse.cc:2148-2164): the `error` token is shifted with
        yylval as its value and the recorded line as its location. */
    method ShiftErrorToken()
      requires Common() && Even() && ErrorTarget(state).Some?
      modifies vs, ls, this`vp, this`lp, this`state
      ensures Common() && At(NewState)
      ensures state == ErrorTarget(old(state)).value && vp == sp + 1 && lp == sp + 1
      ensures vs[..] == old(vs[..])[vp := lval] && ls[..] == old(ls[..])[lp := errorLine]
    {
      var target := ErrorTarget(state).value;
      vp, lp := vp + 1, lp + 1;
      vs[vp] := lval;
      ls[lp] := errorLine;
      state := target;
    }

    /** yyparse: runs the labels from yysetstate until the parse ends, or `fuel` steps have
        been taken. It accepts only in the accepting state and returns only the codes 0, 1
        and 2; the stacks never outgrow YYINITDEPTH, far below YYMAXDEPTH, and the program
        is stopped exactly when yyerror was called more than MAX_ERRORS times
        (PA3/cool-parse.cc:1368-2219). */
    method Parse(fuel: nat) returns (outcome: Outcome)
      requires Common() && At(SetState)
      modifies this, ss, vs, ls
      ensures Common()
      ensures 0 <= sp < YYINITDEPTH <= YYMAXDEPTH
      ensures outcome == Returned(ACCEPTED) ==> state == YYFINAL && ss[sp] == YYFINAL
      ensures outcome == Returned(ACCEPTED) ==>
        1 <= sp && ss[sp - 1] == ProgramState && astRoot == RootOf(vs[sp - 1], ls[sp - 1])
      ensures outcome.Returned? ==> outcome.code == ACCEPTED || outcome.code == ABORTED || outcome.code == EXHAUSTED
      ensures outcome == Returned(EXHAUSTED) ==> sp == YYINITDEPTH - 1
      ensures outcome == TooManyErrors <==> omerrs > MAX_ERRORS
      ensures nerrs <= omerrs
    {
      var current := SetState;
      var steps := 0;
      while !current.Finished? && steps < fuel
        invariant Common() && At(current)
        decreases fuel - steps
      {
        current := Step(current);
        steps := steps + 1;
      }
      if current.Finished? {
        outcome := current.outcome;
      } else {
        outcome := OutOfFuel;
      }
    }

    /** One pass through the label `current` of yyparse, ending at the label it jumps to
        (PA3/cool-parse.cc:1441-2164). A state whose yypact entry is YYPACT_NINF goes to
        yydefault without reading a lookahead. */
    method Step(current: Label) returns (next: Label)
      requires Common() && At(current) && !current.Finished?
      modifies this, ss, vs, ls
      ensures Common() && At(next)
    {
      match current {
        case NewState =>
          next := NewStateStep();
        case SetState =>
          next := SetStateStep();
        case Backup =>
          if DefaultOnly(state) {
            next := Default;
          } else {
            var token := ReadLookahead();
            next := Act(token);
          }
        case Default =>
          next := DefaultStep();
        case Reduce(rule) =>
          next := ReduceStep(rule);
        case ErrLab =>
          next := ErrLabStep();
        case ErrLab1 =>
          next := ErrLab1Step();
      }
    }
  }

  /** When the popping loop reaches the bottom without a state that can shift `error`, no
      state on the stack could. */
  lemma RecoveryPointIsNone(states: seq<StateNum>)
    requires |states| > 0 && ErrorTarget(states[0]).None?
    requires forall j | 0 < j < |states| :: ErrorTarget(states[j]).None?
    ensures RecoveryPoint(states).None?
  {
    if RecoveryPoint(states).Some? {
      var k := RecoveryPoint(states).value;
      assert ErrorTarget(states[k]).Some?;
    }
  }

  /** When the popping loop stops at position `k`, that is the topmost position that can
      shift `error`. */
  lemma {:induction false} RecoveryPointIsTop(states: seq<StateNum>, k: nat)
    requires k < |states| && ErrorTarget(states[k]).Some?
    requires forall j | k < j < |states| :: ErrorTarget(states[j]).None?
    ensures RecoveryPoint(states) == Some(k)
    decreases |states|
  {
    if k < |states| - 1 {
      var front := states[..|states| - 1];
      RecoveryPointIsTop(front, k);
    }
  }
}
