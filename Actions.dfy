/** The semantic actions of the Cool grammar: the `switch (yyn)` of yyreduce
    (PA3/cool-parse.cc:1619-1987) together with Bison's default `$$ = $1`
    (PA3/cool-parse.cc:1614). Each action takes the rule, the values of the right-hand-side
    symbols, the line the node gets and the current file name, and yields the value of the
    left-hand side. */
module SemanticActions {
  import opened ParserTables
  import opened CoolAst
  import opened Wrappers

  /** A value on the semantic stack: one member of the YYSTYPE union. `Unset` stands for a
      union whose member an action reads is not the one last written; the grammar never
      lets that happen, but the actions are total over any stack contents. */
  datatype Value =
    | Unset
    | BooleanValue(boolean: bool)
    | SymbolValue(symbol: Symbol)
    | ClassValue(cls: Class)
    | ClassesValue(classes: seq<Class>)
    | FeatureValue(feature: Feature)
    | FeaturesValue(features: seq<Feature>)
    | FormalValue(formal: Formal)
    | FormalsValue(formals: seq<Formal>)
    | CaseValue(branch: Case)
    | CasesValue(cases: seq<Case>)
    | ExprValue(expr: Expr)
    | ExprsValue(exprs: seq<Expr>)
    | ErrorMsgValue(errorMsg: string)

  /** The symbol numbers of the nonterminals the actions build lists for. */
  const ClassListSymbol := 47
  const FeatureListSymbol := 49
  const FormalListSymbol := 53
  const BlockListSymbol := 55
  const ActualListSymbol := 56
  const CaseListSymbol := 68

  /** A value is well formed when every case expression in it has a branch and every case
      list is non-empty. */
  predicate ValueOk(v: Value) {
    match v
    case ClassValue(c) => ClassOk(c)
    case ClassesValue(cs) => ClassesOk(cs)
    case FeatureValue(f) => FeatureOk(f)
    case FeaturesValue(fs) => forall k | 0 <= k < |fs| :: FeatureOk(fs[k])
    case CaseValue(c) => ExprOk(c.expr)
    case CasesValue(cs) => |cs| > 0 && CasesOk(cs)
    case ExprValue(e) => ExprOk(e)
    case ExprsValue(es) => ExprsOk(es)
    case _ => true
  }

  predicate ValuesOk(vs: seq<Value>) {
    forall k | 0 <= k < |vs| :: ValueOk(vs[k])
  }

  /** The value of the left-hand side of `rule` (PA3/cool-parse.cc:1614, 1619-1987). `line`
      is the location of the first right-hand-side symbol, the line every node built here
      gets; `filename` is the current file's entry in the string table. */
  function SemanticAction(rule: RuleNum, rhs: seq<Value>, line: int, filename: Symbol): (v: Value)
    requires 2 <= rule && |rhs| == YyR2(rule)
  {
    if rule <= 26 then DeclarationAction(rule, rhs, line, filename)
    else ExpressionAction(rule, rhs, line)
  }

  /** Rules 2-26: the program, classes, features, formals and expression lists
      (PA3/cool-parse.cc:1621-1772). */
  function DeclarationAction(rule: RuleNum, rhs: seq<Value>, line: int, filename: Symbol): (v: Value)
    requires 2 <= rule <= 26 && |rhs| == YyR2(rule)
  {
    match rule
    case 3 =>
      (match rhs[0] case ClassValue(c) => ClassesValue([c]) case _ => Unset)
    case 4 =>
      (match (rhs[0], rhs[1])
       case (ClassesValue(cs), ClassValue(c)) => ClassesValue(cs + [c])
       case _ => Unset)
    case 5 => ClassesValue([])
    case 6 =>
      (match (rhs[1], rhs[3])
       case (SymbolValue(name), FeaturesValue(fs)) => ClassValue(Class(name, ObjectType, fs, filename, line))
       case _ => Unset)
    case 7 =>
      (match (rhs[1], rhs[3], rhs[5])
       case (SymbolValue(name), SymbolValue(parent), FeaturesValue(fs)) =>
         ClassValue(Class(name, parent, fs, filename, line))
       case _ => Unset)
    case 8 =>
      (match rhs[0] case FeatureValue(f) => FeaturesValue([f]) case _ => Unset)
    case 9 =>
      (match (rhs[0], rhs[1])
       case (FeaturesValue(fs), FeatureValue(f)) => FeaturesValue(fs + [f])
       case _ => Unset)
    case 10 => FeaturesValue([])
    case 11 => FeaturesValue([])
    case 14 =>
      (match (rhs[0], rhs[2])
       case (SymbolValue(name), SymbolValue(t)) => FeatureValue(Attr(name, t, NoExpr(line), line))
       case _ => Unset)
    case 15 =>
      (match (rhs[0], rhs[2], rhs[4])
       case (SymbolValue(name), SymbolValue(t), ExprValue(init)) => FeatureValue(Attr(name, t, init, line))
       case _ => Unset)
    case 16 =>
      (match (rhs[0], rhs[2], rhs[5], rhs[7])
       case (SymbolValue(name), FormalsValue(fs), SymbolValue(t), ExprValue(body)) =>
         FeatureValue(Method(name, fs, t, body, line))
       case _ => Unset)
    case 17 =>
      (match (rhs[0], rhs[4], rhs[6])
       case (SymbolValue(name), SymbolValue(t), ExprValue(body)) => FeatureValue(Method(name, [], t, body, line))
       case _ => Unset)
    case 18 =>
      (match rhs[0] case FormalValue(f) => FormalsValue([f]) case _ => Unset)
    case 19 =>
      (match (rhs[0], rhs[2])
       case (FormalsValue(fs), FormalValue(f)) => FormalsValue(fs + [f])
       case _ => Unset)
    case 20 =>
      (match (rhs[0], rhs[2])
       case (SymbolValue(name), SymbolValue(t)) => FormalValue(Formal(name, t, line))
       case _ => Unset)
    case 21 =>
      (match rhs[0] case ExprValue(e) => ExprsValue([e]) case _ => Unset)
    case 22 =>
      (match (rhs[0], rhs[1])
       case (ExprsValue(es), ExprValue(e)) => ExprsValue(es + [e])
       case _ => Unset)
    case 23 => ExprsValue([])
    case 24 =>
      (match rhs[0] case ExprValue(e) => ExprsValue([e]) case _ => Unset)
    case 25 =>
      (match (rhs[0], rhs[2])
       case (ExprsValue(es), ExprValue(e)) => ExprsValue(es + [e])
       case _ => Unset)
    case 26 => ExprsValue([])
    // Rule 2 (whose action only records the program), 12 and 13 keep $$ = $1.
    case _ => rhs[0]
  }

  /** Rules 27-73: expressions, let bindings and case branches (PA3/cool-parse.cc:1774-1982). */
  function ExpressionAction(rule: RuleNum, rhs: seq<Value>, line: int): (v: Value)
    requires 27 <= rule && |rhs| == YyR2(rule)
  {
    match rule
    case 27 => rhs[1]
    case 41 =>
      (match rhs[0] case BooleanValue(b) => ExprValue(BoolConst(b, line)) case _ => Unset)
    case 42 =>
      (match rhs[0] case SymbolValue(s) => ExprValue(StringConst(s, line)) case _ => Unset)
    case 43 =>
      (match rhs[0] case SymbolValue(s) => ExprValue(IntConst(s, line)) case _ => Unset)
    case 44 =>
      (match rhs[0] case SymbolValue(s) => ExprValue(Object(s, line)) case _ => Unset)
    case 45 =>
      (match (rhs[0], rhs[2])
       case (SymbolValue(name), ExprValue(e)) => ExprValue(Assign(name, e, line))
       case _ => Unset)
    case 46 =>
      (match (rhs[0], rhs[2], rhs[4])
       case (ExprValue(r), SymbolValue(name), ExprsValue(args)) => ExprValue(Dispatch(r, name, args, line))
       case _ => Unset)
    case 47 =>
      (match (rhs[0], rhs[2])
       case (SymbolValue(name), ExprsValue(args)) =>
         ExprValue(Dispatch(Object(SelfName, line), name, args, line))
       case _ => Unset)
    case 48 =>
      (match (rhs[0], rhs[2], rhs[4], rhs[6])
       case (ExprValue(r), SymbolValue(t), SymbolValue(name), ExprsValue(args)) =>
         ExprValue(StaticDispatch(r, t, name, args, line))
       case _ => Unset)
    case 49 =>
      (match (rhs[1], rhs[3], rhs[5])
       case (ExprValue(p), ExprValue(t), ExprValue(f)) => ExprValue(Cond(p, t, f, line))
       case _ => Unset)
    case 50 =>
      (match (rhs[1], rhs[3])
       case (ExprValue(p), ExprValue(b)) => ExprValue(Loop(p, b, line))
       case _ => Unset)
    case 51 =>
      (match rhs[1] case ExprsValue(es) => ExprValue(Block(es, line)) case _ => Unset)
    case 52 => rhs[1]
    case 53 => LetNode(rhs[0], rhs[2], ExprValue(NoExpr(line)), rhs[4], line)
    case 54 => LetNode(rhs[0], rhs[2], rhs[4], rhs[6], line)
    case 55 => rhs[2]
    case 56 => LetNode(rhs[0], rhs[2], ExprValue(NoExpr(line)), rhs[4], line)
    case 57 => LetNode(rhs[0], rhs[2], rhs[4], rhs[6], line)
    case 58 => rhs[2]
    case 59 =>
      (match (rhs[1], rhs[3])
       case (ExprValue(e), CasesValue(cs)) => ExprValue(TypCase(e, cs, line))
       case _ => Unset)
    case 60 =>
      (match rhs[0] case CaseValue(c) => CasesValue([c]) case _ => Unset)
    case 61 =>
      (match (rhs[0], rhs[1])
       case (CasesValue(cs), CaseValue(c)) => CasesValue(cs + [c])
       case _ => Unset)
    case 62 =>
      (match (rhs[0], rhs[2], rhs[4])
       case (SymbolValue(name), SymbolValue(t), ExprValue(e)) => CaseValue(Branch(name, t, e, line))
       case _ => Unset)
    case 63 =>
      (match rhs[1] case SymbolValue(t) => ExprValue(New(t, line)) case _ => Unset)
    case 64 =>
      (match rhs[1] case ExprValue(e) => ExprValue(IsVoid(e, line)) case _ => Unset)
    case 65 => Binary(EqOp, rhs[0], rhs[2], line)
    case 66 => Binary(LtOp, rhs[0], rhs[2], line)
    case 67 => Binary(LeqOp, rhs[0], rhs[2], line)
    case 68 =>
      (match rhs[1] case ExprValue(e) => ExprValue(Comp(e, line)) case _ => Unset)
    case 69 =>
      (match rhs[1] case ExprValue(e) => ExprValue(Neg(e, line)) case _ => Unset)
    case 70 => Binary(PlusOp, rhs[0], rhs[2], line)
    case 71 => Binary(SubOp, rhs[0], rhs[2], line)
    case 72 => Binary(MulOp, rhs[0], rhs[2], line)
    case 73 => Binary(DivideOp, rhs[0], rhs[2], line)
    // Rules 28-40 keep $$ = $1.
    case _ => rhs[0]
  }

  /** The program rule 2 records in ast_root: the class list of its right-hand side, the
      program node getting the list's line (PA3/cool-parse.cc:1621-1623). */
  function RootOf(classList: Value, line: int): (p: Option<Program>)
    ensures ValueOk(classList) && p.Some? ==> ProgramOk(p.value)
  {
    match classList
    case ClassesValue(cs) => Some(Program(cs, line))
    case _ => None
  }

  /** The class list rules 3 and 4 record in parse_results (PA3/cool-parse.cc:1627-1639). */
  function ResultsOf(classList: Value): (r: Option<seq<Class>>)
    ensures ValueOk(classList) && r.Some? ==> ClassesOk(r.value)
  {
    match classList
    case ClassesValue(cs) => Some(cs)
    case _ => None
  }

  /** The `let` node of rules 53, 54, 56 and 57: one binding around an already built body. */
  function LetNode(name: Value, typeDecl: Value, init: Value, body: Value, line: int): (v: Value)
  {
    match (name, typeDecl, init, body)
    case (SymbolValue(n), SymbolValue(t), ExprValue(i), ExprValue(b)) => ExprValue(Let(n, t, i, b, line))
    case _ => Unset
  }

  /** The binary operators: comparisons (rules 65-67) and arithmetic (rules 70-73). */
  datatype BinaryOp = EqOp | LtOp | LeqOp | PlusOp | SubOp | MulOp | DivideOp

  function BinaryNode(op: BinaryOp, l: Expr, r: Expr, line: int): Expr {
    match op
    case EqOp => Eq(l, r, line)
    case LtOp => Lt(l, r, line)
    case LeqOp => Leq(l, r, line)
    case PlusOp => Plus(l, r, line)
    case SubOp => Sub(l, r, line)
    case MulOp => Mul(l, r, line)
    case DivideOp => Divide(l, r, line)
  }

  /** The node of a binary operator over two expression operands. */
  function Binary(op: BinaryOp, left: Value, right: Value, line: int): (v: Value)
  {
    match (left, right)
    case (ExprValue(l), ExprValue(r)) => ExprValue(BinaryNode(op, l, r, line))
    case _ => Unset
  }

  /** Building never breaks well-formedness: an action over well-formed values yields a
      well-formed value. In particular the case list of rules 60-61 is never empty. */
  lemma ActionKeepsValuesOk(rule: RuleNum, rhs: seq<Value>, line: int, filename: Symbol)
    requires 2 <= rule && |rhs| == YyR2(rule) && ValuesOk(rhs)
    ensures ValueOk(SemanticAction(rule, rhs, line, filename))
  {
    if rule <= 11 {
      ClassActionsOk(rule, rhs, line, filename);
    } else if rule <= 20 {
      FeatureActionsOk(rule, rhs, line, filename);
    } else if rule <= 26 {
      ListActionsOk(rule, rhs, line, filename);
    } else if rule <= 48 {
      SimpleExprActionsOk(rule, rhs, line);
    } else if rule <= 55 {
      CompoundExprActionsOk(rule, rhs, line);
    } else if rule <= 62 {
      CaseAndLetActionsOk(rule, rhs, line);
    } else if rule <= 67 {
      UnaryAndComparisonActionsOk(rule, rhs, line);
    } else {
      ArithmeticActionsOk(rule, rhs, line);
    }
  }

  lemma ClassActionsOk(rule: RuleNum, rhs: seq<Value>, line: int, filename: Symbol)
    requires 2 <= rule <= 11 && |rhs| == YyR2(rule) && ValuesOk(rhs)
    ensures ValueOk(DeclarationAction(rule, rhs, line, filename))
  {
  }

  lemma FeatureActionsOk(rule: RuleNum, rhs: seq<Value>, line: int, filename: Symbol)
    requires 12 <= rule <= 20 && |rhs| == YyR2(rule) && ValuesOk(rhs)
    ensures ValueOk(DeclarationAction(rule, rhs, line, filename))
  {
  }

  lemma ListActionsOk(rule: RuleNum, rhs: seq<Value>, line: int, filename: Symbol)
    requires 21 <= rule <= 26 && |rhs| == YyR2(rule) && ValuesOk(rhs)
    ensures ValueOk(DeclarationAction(rule, rhs, line, filename))
  {
  }

  lemma SimpleExprActionsOk(rule: RuleNum, rhs: seq<Value>, line: int)
    requires 27 <= rule <= 48 && |rhs| == YyR2(rule) && ValuesOk(rhs)
    ensures ValueOk(ExpressionAction(rule, rhs, line))
  {
  }

  lemma CompoundExprActionsOk(rule: RuleNum, rhs: seq<Value>, line: int)
    requires 49 <= rule <= 55 && |rhs| == YyR2(rule) && ValuesOk(rhs)
    ensures ValueOk(ExpressionAction(rule, rhs, line))
  {
  }

  lemma CaseAndLetActionsOk(rule: RuleNum, rhs: seq<Value>, line: int)
    requires 56 <= rule <= 62 && |rhs| == YyR2(rule) && ValuesOk(rhs)
    ensures ValueOk(ExpressionAction(rule, rhs, line))
  {
  }

  lemma UnaryAndComparisonActionsOk(rule: RuleNum, rhs: seq<Value>, line: int)
    requires 63 <= rule <= 67 && |rhs| == YyR2(rule) && ValuesOk(rhs)
    ensures ValueOk(ExpressionAction(rule, rhs, line))
  {
  }

  lemma ArithmeticActionsOk(rule: RuleNum, rhs: seq<Value>, line: int)
    requires 68 <= rule && |rhs| == YyR2(rule) && ValuesOk(rhs)
    ensures ValueOk(ExpressionAction(rule, rhs, line))
  {
  }
}
