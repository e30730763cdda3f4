/** What the semantic actions promise about the trees they build: the defaults the grammar
    fills in for omitted parts, transparent parentheses, lists in source order, case lists
    that are never empty and the right-nested desugaring of a multi-binding `let`. */
module ActionLaws {
  import opened ParserTables
  import opened CoolAst
  import opened SemanticActions
  import opened Wrappers

  /** A class without `inherits` is the class that inherits `Object` (PA3/cool-parse.cc:1647-1656). */
  lemma ClassWithoutParentInheritsObject(
    name: Symbol, fs: seq<Feature>, line: int, filename: Symbol,
    classTok: Value, inheritsTok: Value, open: Value, close: Value, semi: Value)
    ensures SemanticAction(6, [classTok, SymbolValue(name), open, FeaturesValue(fs), close, semi], line, filename)
         == ClassValue(Class(name, ObjectType, fs, filename, line))
    ensures SemanticAction(6, [classTok, SymbolValue(name), open, FeaturesValue(fs), close, semi], line, filename)
         == SemanticAction(7, [classTok, SymbolValue(name), inheritsTok, SymbolValue(ObjectType), open,
                               FeaturesValue(fs), close, semi], line, filename)
  {
  }

  /** An attribute without an initializer is the attribute initialised with `no_expr`
      (PA3/cool-parse.cc:1696-1706). */
  lemma AttributeWithoutInitializer(
    name: Symbol, t: Symbol, line: int, filename: Symbol,
    colon: Value, assign: Value, semi: Value)
    ensures SemanticAction(14, [SymbolValue(name), colon, SymbolValue(t), semi], line, filename)
         == FeatureValue(Attr(name, t, NoExpr(line), line))
    ensures SemanticAction(14, [SymbolValue(name), colon, SymbolValue(t), semi], line, filename)
         == SemanticAction(15, [SymbolValue(name), colon, SymbolValue(t), assign, ExprValue(NoExpr(line)), semi],
                           line, filename)
  {
  }

  /** A method written with `()` is the method with the empty formal list
      (PA3/cool-parse.cc:1708-1718). */
  lemma MethodWithoutFormals(
    name: Symbol, t: Symbol, body: Expr, line: int, filename: Symbol,
    lparen: Value, rparen: Value, colon: Value, lbrace: Value, rbrace: Value, semi: Value)
    ensures SemanticAction(17, [SymbolValue(name), lparen, rparen, colon, SymbolValue(t), lbrace, ExprValue(body),
                                rbrace, semi], line, filename)
         == FeatureValue(Method(name, [], t, body, line))
    ensures SemanticAction(17, [SymbolValue(name), lparen, rparen, colon, SymbolValue(t), lbrace, ExprValue(body),
                                rbrace, semi], line, filename)
         == SemanticAction(16, [SymbolValue(name), lparen, FormalsValue([]), rparen, colon, SymbolValue(t), lbrace,
                                ExprValue(body), rbrace, semi], line, filename)
  {
  }

  /** A dispatch without a receiver dispatches on `self`, the object node getting the
      dispatch's own line (PA3/cool-parse.cc:1816-1826). */
  lemma DispatchWithoutReceiverUsesSelf(
    name: Symbol, args: seq<Expr>, line: int, filename: Symbol,
    dot: Value, lparen: Value, rparen: Value)
    ensures SemanticAction(47, [SymbolValue(name), lparen, ExprsValue(args), rparen], line, filename)
         == ExprValue(Dispatch(Object(SelfName, line), name, args, line))
    ensures SemanticAction(47, [SymbolValue(name), lparen, ExprsValue(args), rparen], line, filename)
         == SemanticAction(46, [ExprValue(Object(SelfName, line)), dot, SymbolValue(name), lparen, ExprsValue(args),
                                rparen], line, filename)
  {
  }

  /** A `let` binding without an initializer is the binding initialised with `no_expr`, both
      for the last binding (rules 53, 54) and for an inner one (rules 56, 57)
      (PA3/cool-parse.cc:1858-1886). */
  lemma LetWithoutInitializer(
    name: Symbol, t: Symbol, rest: Value, line: int, filename: Symbol,
    colon: Value, assign: Value, sep: Value)
    ensures SemanticAction(53, [SymbolValue(name), colon, SymbolValue(t), sep, rest], line, filename)
         == SemanticAction(54, [SymbolValue(name), colon, SymbolValue(t), assign, ExprValue(NoExpr(line)), sep, rest],
                           line, filename)
    ensures SemanticAction(56, [SymbolValue(name), colon, SymbolValue(t), sep, rest], line, filename)
         == SemanticAction(57, [SymbolValue(name), colon, SymbolValue(t), assign, ExprValue(NoExpr(line)), sep, rest],
                           line, filename)
    ensures rest.ExprValue? ==>
      SemanticAction(53, [SymbolValue(name), colon, SymbolValue(t), sep, rest], line, filename)
      == ExprValue(Let(name, t, NoExpr(line), rest.expr, line))
  {
  }

  /** A parenthesised expression is the expression inside, whatever the parentheses' own
      values (PA3/cool-parse.cc:1774-1776). */
  lemma ParenthesesAreTransparent(inner: Value, lparen: Value, rparen: Value, line: int, filename: Symbol)
    ensures SemanticAction(27, [lparen, inner, rparen], line, filename) == inner
  {
  }

  /** The rules without an action of their own, and those whose action copies $1, keep the
      value of their first symbol: Bison's default `$$ = $1` (PA3/cool-parse.cc:1614). */
  lemma UnitRulesKeepFirstValue(rule: RuleNum, rhs: seq<Value>, line: int, filename: Symbol)
    requires rule == 2 || rule == 12 || rule == 13 || 28 <= rule <= 40
    requires |rhs| == YyR2(rule)
    ensures |rhs| == 1 && SemanticAction(rule, rhs, line, filename) == rhs[0]
  {
  }

  /** The error productions `class_list: error ';'`, `feature_list: error ';'` and
      `semicolon_expression_list: error ';'` yield empty lists, whatever was popped
      (PA3/cool-parse.cc:1641-1645, 1678-1682, 1750-1754). */
  lemma ErrorProductionsYieldEmptyLists(rhs: seq<Value>, line: int, filename: Symbol)
    requires |rhs| == 2
    ensures SemanticAction(5, rhs, line, filename) == ClassesValue([])
    ensures SemanticAction(11, rhs, line, filename) == FeaturesValue([])
    ensures SemanticAction(23, rhs, line, filename) == ExprsValue([])
  {
  }

  /** Because of the error production of rule 23, a block can be empty: `{ error ; }` yields
      a block with no expressions (PA3/cool-parse.cc:1750-1754, 1846-1850). */
  lemma RecoveredBlockIsEmpty(lbrace: Value, rbrace: Value, err: Value, semi: Value, line: int, filename: Symbol)
    ensures SemanticAction(51, [lbrace, SemanticAction(23, [err, semi], line, filename), rbrace], line, filename)
         == ExprValue(Block([], line))
  {
  }

  /** Every rule for `case_list` yields a non-empty list (or nothing, when its operands are
      not the values the grammar puts there): there is no empty or error production for it
      (PA3/cool-parse.cc:1900-1910). */
  lemma CaseListsAreNeverEmpty(rule: RuleNum, rhs: seq<Value>, line: int, filename: Symbol)
    requires 2 <= rule && |rhs| == YyR2(rule) && YyR1(rule) == CaseListSymbol
    ensures var v := SemanticAction(rule, rhs, line, filename);
      v.Unset? || (v.CasesValue? && |v.cases| > 0)
  {
  }

  /** The six list nonterminals: each is built by a rule for its first element and a
      left-recursive rule that appends one element. */
  datatype ListKind = ClassList | FeatureList | FormalList | BlockList | ActualList | CaseList

  /** The rule that starts a list with one element (PA3/cool-parse.cc:1627, 1660, 1720, 1738,
      1756, 1900). */
  function SingleRule(k: ListKind): RuleNum {
    match k
    case ClassList => 3
    case FeatureList => 8
    case FormalList => 18
    case BlockList => 21
    case ActualList => 24
    case CaseList => 60
  }

  /** The rule that appends one element to a list (PA3/cool-parse.cc:1634, 1666, 1726, 1744,
      1762, 1906). */
  function AppendRule(k: ListKind): RuleNum {
    match k
    case ClassList => 4
    case FeatureList => 9
    case FormalList => 19
    case BlockList => 22
    case ActualList => 25
    case CaseList => 61
  }

  /** The nonterminal each list is (PA3/cool-parse.cc:830-840). */
  function ListSymbol(k: ListKind): SymbolNum {
    match k
    case ClassList => ClassListSymbol
    case FeatureList => FeatureListSymbol
    case FormalList => FormalListSymbol
    case BlockList => BlockListSymbol
    case ActualList => ActualListSymbol
    case CaseList => CaseListSymbol
  }

  /** The two rules of a list are the ones the tables reduce to that list's nonterminal, and
      the right-hand sides modelled here have the lengths the tables pop (yyr1 and yyr2,
      PA3/cool-parse.cc:830-853). */
  lemma ListRulesReduceToTheList(k: ListKind, prev: Value, item: Value, punct: Value)
    ensures YyR1(SingleRule(k)) == ListSymbol(k) && YyR1(AppendRule(k)) == ListSymbol(k)
    ensures YyR2(SingleRule(k)) == |SingleRhs(k, item, punct)|
    ensures YyR2(AppendRule(k)) == |AppendRhs(k, prev, item, punct)|
  {
  }

  /** The right-hand side of the first-element rule: a block element is followed by its `;`. */
  function SingleRhs(k: ListKind, item: Value, punct: Value): seq<Value> {
    if k == BlockList then [item, punct] else [item]
  }

  /** The right-hand side of the append rule: formals and actuals are separated by `,`, a
      block element is followed by its `;`. */
  function AppendRhs(k: ListKind, prev: Value, item: Value, punct: Value): seq<Value> {
    match k
    case FormalList => [prev, punct, item]
    case ActualList => [prev, punct, item]
    case BlockList => [prev, item, punct]
    case _ => [prev, item]
  }

  /** `v` is a value of the list's element symbol. */
  predicate IsElement(k: ListKind, v: Value) {
    match k
    case ClassList => v.ClassValue?
    case FeatureList => v.FeatureValue?
    case FormalList => v.FormalValue?
    case BlockList => v.ExprValue?
    case ActualList => v.ExprValue?
    case CaseList => v.CaseValue?
  }

  /** `v` is the list value holding exactly the elements `items`, in their order: the
      reference the parsed lists are compared with. */
  predicate IsListOf(k: ListKind, v: Value, items: seq<Value>) {
    match k
    case ClassList =>
      v.ClassesValue? && |v.classes| == |items| && forall i | 0 <= i < |items| :: items[i] == ClassValue(v.classes[i])
    case FeatureList =>
      v.FeaturesValue? && |v.features| == |items| && forall i | 0 <= i < |items| :: items[i] == FeatureValue(v.features[i])
    case FormalList =>
      v.FormalsValue? && |v.formals| == |items| && forall i | 0 <= i < |items| :: items[i] == FormalValue(v.formals[i])
    case BlockList =>
      v.ExprsValue? && |v.exprs| == |items| && forall i | 0 <= i < |items| :: items[i] == ExprValue(v.exprs[i])
    case ActualList =>
      v.ExprsValue? && |v.exprs| == |items| && forall i | 0 <= i < |items| :: items[i] == ExprValue(v.exprs[i])
    case CaseList =>
      v.CasesValue? && |v.cases| == |items| && forall i | 0 <= i < |items| :: items[i] == CaseValue(v.cases[i])
  }

  /** The value the parser builds for a non-empty list: the first element reduced by the
      first-element rule, every later one appended by the append rule. `punct` stands for
      the values of the separators. */
  function ParseList(k: ListKind, items: seq<Value>, punct: Value, line: int, filename: Symbol): Value
    requires |items| > 0
    decreases |items|
  {
    if |items| == 1 then
      SemanticAction(SingleRule(k), SingleRhs(k, items[0], punct), line, filename)
    else
      var prev := ParseList(k, items[..|items| - 1], punct, line, filename);
      SemanticAction(AppendRule(k), AppendRhs(k, prev, items[|items| - 1], punct), line, filename)
  }

  /** Lists keep source order: the parsed list holds exactly the elements, in the order they
      were reduced (PA3/cool-parse.cc:1627-1639, 1660-1670, 1720-1730, 1738-1748, 1756-1766,
      1900-1910). */
  lemma {:induction false} ParsedListsKeepSourceOrder(
    k: ListKind, items: seq<Value>, punct: Value, line: int, filename: Symbol)
    requires |items| > 0 && forall i | 0 <= i < |items| :: IsElement(k, items[i])
    ensures IsListOf(k, ParseList(k, items, punct, line, filename), items)
    decreases |items|
  {
    if |items| == 1 {
      SingleElement(k, items[0], punct, line, filename);
    } else {
      var front := items[..|items| - 1];
      ParsedListsKeepSourceOrder(k, front, punct, line, filename);
      AppendElement(k, ParseList(k, front, punct, line, filename), front, items[|items| - 1], punct, line, filename);
      assert front + [items[|items| - 1]] == items;
    }
  }

  /** The first-element rule yields the one-element list. */
  lemma SingleElement(k: ListKind, item: Value, punct: Value, line: int, filename: Symbol)
    requires IsElement(k, item)
    ensures IsListOf(k, SemanticAction(SingleRule(k), SingleRhs(k, item, punct), line, filename), [item])
  {
  }

  /** The append rule extends a list by exactly one element at its end. */
  lemma AppendElement(k: ListKind, prev: Value, front: seq<Value>, item: Value, punct: Value, line: int, filename: Symbol)
    requires IsListOf(k, prev, front) && IsElement(k, item)
    ensures IsListOf(k, SemanticAction(AppendRule(k), AppendRhs(k, prev, item, punct), line, filename), front + [item])
  {
  }

  /** One binding `name : typeDecl [<- init]` of a `let`, with the line of its name. */
  datatype Binding = Binding(name: Symbol, typeDecl: Symbol, init: Option<Expr>, line: int)

  /** The reference meaning of `let b1, ..., bn in body`: one `let` node per binding, each
      the body of the one before, a missing initializer being `no_expr`. */
  function NestedLets(bindings: seq<Binding>, body: Expr): Expr
    decreases |bindings|
  {
    if |bindings| == 0 then body
    else
      var b := bindings[0];
      Let(b.name, b.typeDecl, InitOf(b), NestedLets(bindings[1..], body), b.line)
  }

  function InitOf(b: Binding): Expr {
    if b.init.Some? then b.init.value else NoExpr(b.line)
  }

  /** The reduction of one binding around `rest`: rule 53 or 54 for the last binding, whose
      `rest` is the body after `in`, rule 56 or 57 for an earlier one, whose `rest` is the
      `let` built for the bindings after it. `tok` stands for the values of the punctuation
      tokens. */
  function ReduceBinding(b: Binding, rest: Value, last: bool, tok: Value): Value {
    var rule := if last then (if b.init.None? then 53 else 54) else (if b.init.None? then 56 else 57);
    var rhs := if b.init.None? then [SymbolValue(b.name), tok, SymbolValue(b.typeDecl), tok, rest]
               else [SymbolValue(b.name), tok, SymbolValue(b.typeDecl), tok, ExprValue(b.init.value), tok, rest];
    SemanticAction(rule, rhs, b.line, Symbol([]))
  }

  /** The value the parser builds for the `let` nonterminal over the bindings and the body. */
  function ParseLet(bindings: seq<Binding>, body: Expr, tok: Value): Value
    requires |bindings| > 0
    decreases |bindings|
  {
    if |bindings| == 1 then ReduceBinding(bindings[0], ExprValue(body), true, tok)
    else ReduceBinding(bindings[0], ParseLet(bindings[1..], body, tok), false, tok)
  }

  /** Each binding's reduction wraps `rest` in one `let` node with the binding's line. */
  lemma BindingBuildsLet(b: Binding, rest: Expr, last: bool, tok: Value)
    ensures ReduceBinding(b, ExprValue(rest), last, tok) == ExprValue(Let(b.name, b.typeDecl, InitOf(b), rest, b.line))
  {
  }

  /** A multi-binding `let` becomes right-nested `let` nodes, each binding's node getting the
      line of the binding's name (PA3/cool-parse.cc:1852-1890). */
  lemma {:induction false} LetBindingsNestToTheRight(bindings: seq<Binding>, body: Expr, tok: Value)
    requires |bindings| > 0
    ensures ParseLet(bindings, body, tok) == ExprValue(NestedLets(bindings, body))
    decreases |bindings|
  {
    if |bindings| == 1 {
      BindingBuildsLet(bindings[0], body, true, tok);
      assert NestedLets(bindings[1..], body) == body;
    } else {
      LetBindingsNestToTheRight(bindings[1..], body, tok);
      BindingBuildsLet(bindings[0], NestedLets(bindings[1..], body), false, tok);
    }
  }

  /** `let_expr: LET let` passes the nested `let` through (PA3/cool-parse.cc:1852-1856). */
  lemma LetExpressionIsTheNestedLets(bindings: seq<Binding>, body: Expr, tok: Value, letTok: Value, line: int)
    requires |bindings| > 0
    ensures SemanticAction(52, [letTok, ParseLet(bindings, body, tok)], line, Symbol([]))
         == ExprValue(NestedLets(bindings, body))
  {
    LetBindingsNestToTheRight(bindings, body, tok);
  }
}
