/** Operator precedence and associativity as the parser tables resolve them. The grammar's
    binary expressions are ambiguous; Bison settled each shift/reduce conflict when it built
    the tables, so the ladder `not` < {`=`, `<`, `<=`} (non-associative) < {`+`, `-`} (left)
    < {`*`, `/`} (left) < `isvoid`, `~` lives in the entries of yypact, yydefact, yytable
    and yycheck (PA3/cool-parse.cc:659-803). The states are named here by the rule they reduce
    by default, so every statement covers every state that has just read `e1 op e2`. */
module Precedence {
  import opened ParserTables
  import opened TableDecode

  /** The internal token numbers of the operators (the yytname order, PA3/cool-parse.cc:618-631). */
  const LeToken := 27
  const LtToken := 29
  const EqToken := 30
  const PlusToken := 31
  const MinusToken := 32
  const TimesToken := 33
  const DivideToken := 34

  /** The rules that build operator expressions (PA3/cool-parse.cc:1924-1983). */
  const IsvoidRule := 64
  const EqRule := 65
  const LtRule := 66
  const LeqRule := 67
  const NotRule := 68
  const NegRule := 69
  const PlusRule := 70
  const SubRule := 71
  const MulRule := 72
  const DivideRule := 73

  predicate IsComparison(t: TokenNum) {
    t == LeToken || t == LtToken || t == EqToken
  }

  predicate IsAdditive(t: TokenNum) {
    t == PlusToken || t == MinusToken
  }

  predicate IsMultiplicative(t: TokenNum) {
    t == TimesToken || t == DivideToken
  }

  predicate IsBinaryOperator(t: TokenNum) {
    IsComparison(t) || IsAdditive(t) || IsMultiplicative(t)
  }

  /** What the driver does in `state` with lookahead `token`: the table action when the state
      reads a lookahead and the table names one, the state's default action otherwise
      (PA3/cool-parse.cc:1557-1597). */
  function Decision(state: StateNum, token: TokenNum): (a: Action)
    ensures a != UseDefault
    ensures DefaultOnly(state) ==> a == DefaultAction(state)
  {
    if DefaultOnly(state) then DefaultAction(state)
    else
      match TableAction(state, token)
      case UseDefault => DefaultAction(state)
      case other => other
  }

  /** Every operator rule is the default reduction of some state, the one that has just read
      that operator expression, so none of the lemmas below is about an empty set of states. */
  lemma OperatorStatesExist()
    ensures YyDefact(79) == IsvoidRule && YyDefact(82) == NotRule && YyDefact(83) == NegRule
    ensures YyDefact(114) == LeqRule && YyDefact(115) == LtRule && YyDefact(116) == EqRule
    ensures YyDefact(117) == PlusRule && YyDefact(118) == SubRule
    ensures YyDefact(119) == MulRule && YyDefact(120) == DivideRule
  {
  }

  /** No other state has an operator rule as its default reduction: with OperatorStatesExist,
      there is exactly one state per operator rule. */
  lemma OperatorStates(state: StateNum)
    ensures YyDefact(state) == IsvoidRule ==> state == 79
    ensures YyDefact(state) == NotRule ==> state == 82
    ensures YyDefact(state) == NegRule ==> state == 83
    ensures YyDefact(state) == LeqRule ==> state == 114
    ensures YyDefact(state) == LtRule ==> state == 115
    ensures YyDefact(state) == EqRule ==> state == 116
    ensures YyDefact(state) == PlusRule ==> state == 117
    ensures YyDefact(state) == SubRule ==> state == 118
    ensures YyDefact(state) == MulRule ==> state == 119
    ensures YyDefact(state) == DivideRule ==> state == 120
  {
  }

  /** Comparisons are non-associative: after `e1 < e2`, `e1 = e2` or `e1 <= e2` another
      comparison operator is a syntax error, so `1 < 2 < 3` is rejected. */
  lemma ComparisonsAreNonAssociative(state: StateNum, token: TokenNum)
    requires EqRule <= YyDefact(state) <= LeqRule && IsComparison(token)
    ensures Decision(state, token) == SyntaxError
  {
    OperatorStates(state);
    assert state == 114 || state == 115 || state == 116;
  }

  /** Arithmetic binds tighter than comparison, seen from the comparison: after `e1 < e2`,
      `e1 = e2` or `e1 <= e2` an arithmetic operator is shifted, so it takes `e2` as its left
      operand. */
  lemma ArithmeticInsideComparison(state: StateNum, token: TokenNum)
    requires EqRule <= YyDefact(state) <= LeqRule && (IsAdditive(token) || IsMultiplicative(token))
    ensures Decision(state, token).ShiftTo?
  {
    OperatorStates(state);
    ArithmeticSlots(YyPact(state) + token);
  }

  /** The yytable slots the comparison states read for an arithmetic operator: each is
      guarded by that operator and holds a state. */
  lemma ArithmeticSlots(i: int)
    requires 348 <= i <= 351
    ensures YyCheck(i) == i - 317 && 0 < YyTable(i)
  {
  }

  /** Arithmetic binds tighter than comparison, seen from the arithmetic: after `e1 + e2`,
      `e1 - e2`, `e1 * e2` or `e1 / e2` a comparison operator reduces the arithmetic
      expression first. */
  lemma ComparisonAfterArithmetic(state: StateNum, token: TokenNum)
    requires PlusRule <= YyDefact(state) <= DivideRule && IsComparison(token)
    ensures Decision(state, token) == ReduceBy(YyDefact(state))
  {
    OperatorStates(state);
  }

  /** `+` and `-` associate to the left: after `e1 + e2` or `e1 - e2` another additive
      operator reduces first, so `a - b + c` is `(a - b) + c`. */
  lemma AdditionIsLeftAssociative(state: StateNum, token: TokenNum)
    requires PlusRule <= YyDefact(state) <= SubRule && IsAdditive(token)
    ensures Decision(state, token) == ReduceBy(YyDefact(state))
  {
    OperatorStates(state);
  }

  /** `*` and `/` bind tighter than `+` and `-`: after `e1 + e2` or `e1 - e2` a
      multiplicative operator is shifted, so `1 + 2 * 3` is `1 + (2 * 3)`. */
  lemma MultiplicationInsideAddition(state: StateNum, token: TokenNum)
    requires PlusRule <= YyDefact(state) <= SubRule && IsMultiplicative(token)
    ensures Decision(state, token).ShiftTo?
  {
    OperatorStates(state);
  }

  /** `*` and `/` associate to the left and bind tightest among the binary operators: after
      `e1 * e2` or `e1 / e2` every binary operator reduces first, so `a / b * c` is
      `(a / b) * c`. */
  lemma MultiplicationReducesFirst(state: StateNum, token: TokenNum)
    requires MulRule <= YyDefact(state) <= DivideRule && IsBinaryOperator(token)
    ensures Decision(state, token) == ReduceBy(YyDefact(state))
  {
    OperatorStates(state);
  }

  /** `isvoid` and `~` bind tighter than every binary operator: after `isvoid e` or `~e` a
      binary operator reduces the unary expression first, so `~a + b` is `(~a) + b`. */
  lemma PrefixOperatorsBindTightest(state: StateNum, token: TokenNum)
    requires (YyDefact(state) == IsvoidRule || YyDefact(state) == NegRule) && IsBinaryOperator(token)
    ensures Decision(state, token) == ReduceBy(YyDefact(state))
  {
    OperatorStates(state);
  }

  /** `not` binds looser than every binary operator: after `not e` a binary operator is
      shifted, so `not a < b` is `not (a < b)`. */
  lemma NotBindsLoosest(state: StateNum, token: TokenNum)
    requires YyDefact(state) == NotRule && IsBinaryOperator(token)
    ensures Decision(state, token).ShiftTo?
  {
    OperatorStates(state);
  }
}
