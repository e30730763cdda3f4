/** The abstract syntax tree the Cool parser builds. Every node carries the line number the
    parser gives it; lists are sequences in source order. The C++ node classes and their
    constructors (cool-tree.h) are not part of this model. */
module CoolAst {

  /** An entry of the identifier or string table. Interning makes two symbols with the same
      text the same entry, so a symbol is identified by its text. */
  datatype Symbol = Symbol(text: string)

  /** The class a class without `inherits` extends (PA3/cool-parse.cc:1649). */
  const ObjectType := Symbol("Object")
  /** The receiver of a dispatch written without one (PA3/cool-parse.cc:1824). */
  const SelfName := Symbol("self")

  datatype Program = Program(classes: seq<Class>, line: int)

  datatype Class = Class(name: Symbol, parent: Symbol, features: seq<Feature>, filename: Symbol, line: int)

  datatype Feature =
    | Attr(name: Symbol, typeDecl: Symbol, init: Expr, line: int)
    | Method(name: Symbol, formals: seq<Formal>, returnType: Symbol, body: Expr, line: int)

  datatype Formal = Formal(name: Symbol, typeDecl: Symbol, line: int)

  /** One branch `name : typeDecl => expr` of a case expression. */
  datatype Case = Branch(name: Symbol, typeDecl: Symbol, expr: Expr, line: int)

  datatype Expr =
    | NoExpr(line: int)
    | BoolConst(value: bool, line: int)
    | StringConst(token: Symbol, line: int)
    | IntConst(token: Symbol, line: int)
    | Object(name: Symbol, line: int)
    | Assign(name: Symbol, rhs: Expr, line: int)
    | Dispatch(receiver: Expr, name: Symbol, actuals: seq<Expr>, line: int)
    | StaticDispatch(receiver: Expr, typeName: Symbol, name: Symbol, actuals: seq<Expr>, line: int)
    | Cond(pred: Expr, thenExpr: Expr, elseExpr: Expr, line: int)
    | Loop(pred: Expr, body: Expr, line: int)
    | Block(stmts: seq<Expr>, line: int)
    | Let(identifier: Symbol, typeDecl: Symbol, init: Expr, body: Expr, line: int)
    | TypCase(scrutinee: Expr, cases: seq<Case>, line: int)
    | New(typeName: Symbol, line: int)
    | IsVoid(operand: Expr, line: int)
    | Eq(left: Expr, right: Expr, line: int)
    | Lt(left: Expr, right: Expr, line: int)
    | Leq(left: Expr, right: Expr, line: int)
    | Comp(operand: Expr, line: int)
    | Neg(operand: Expr, line: int)
    | Plus(left: Expr, right: Expr, line: int)
    | Sub(left: Expr, right: Expr, line: int)
    | Mul(left: Expr, right: Expr, line: int)
    | Divide(left: Expr, right: Expr, line: int)

  /** Every case expression inside `e` has at least one branch. */
  predicate ExprOk(e: Expr)
    decreases e
  {
    match e
    case NoExpr(_) => true
    case BoolConst(_, _) => true
    case StringConst(_, _) => true
    case IntConst(_, _) => true
    case Object(_, _) => true
    case Assign(_, r, _) => ExprOk(r)
    case Dispatch(r, _, args, _) => ExprOk(r) && forall k | 0 <= k < |args| :: ExprOk(args[k])
    case StaticDispatch(r, _, _, args, _) => ExprOk(r) && forall k | 0 <= k < |args| :: ExprOk(args[k])
    case Cond(p, t, f, _) => ExprOk(p) && ExprOk(t) && ExprOk(f)
    case Loop(p, b, _) => ExprOk(p) && ExprOk(b)
    case Block(body, _) => forall k | 0 <= k < |body| :: ExprOk(body[k])
    case Let(_, _, i, b, _) => ExprOk(i) && ExprOk(b)
    case TypCase(s, cs, _) =>
      |cs| > 0 && ExprOk(s) && forall k | 0 <= k < |cs| :: ExprOk(cs[k].expr)
    case New(_, _) => true
    case IsVoid(x, _) => ExprOk(x)
    case Eq(l, r, _) => ExprOk(l) && ExprOk(r)
    case Lt(l, r, _) => ExprOk(l) && ExprOk(r)
    case Leq(l, r, _) => ExprOk(l) && ExprOk(r)
    case Comp(x, _) => ExprOk(x)
    case Neg(x, _) => ExprOk(x)
    case Plus(l, r, _) => ExprOk(l) && ExprOk(r)
    case Sub(l, r, _) => ExprOk(l) && ExprOk(r)
    case Mul(l, r, _) => ExprOk(l) && ExprOk(r)
    case Divide(l, r, _) => ExprOk(l) && ExprOk(r)
  }

  predicate ExprsOk(es: seq<Expr>) {
    forall k | 0 <= k < |es| :: ExprOk(es[k])
  }

  predicate CasesOk(cs: seq<Case>) {
    forall k | 0 <= k < |cs| :: ExprOk(cs[k].expr)
  }

  predicate FeatureOk(f: Feature) {
    match f
    case Attr(_, _, init, _) => ExprOk(init)
    case Method(_, _, _, body, _) => ExprOk(body)
  }

  predicate ClassOk(c: Class) {
    forall k | 0 <= k < |c.features| :: FeatureOk(c.features[k])
  }

  predicate ClassesOk(cs: seq<Class>) {
    forall k | 0 <= k < |cs| :: ClassOk(cs[k])
  }

  predicate ProgramOk(p: Program) {
    ClassesOk(p.classes)
  }
}
