/**
 * The expression tree of pylox/parser/expr.py and the statement forms of
 * pylox/parser/stmt.py.
 *
 * Every expression class becomes a constructor of `Expr`; a visitor becomes
 * a record holding one function per `visit_*_expr` method, and `accept`
 * becomes `Accept`, a `match` on the constructor.
 */
module Ast {
  import opened Tokens

  datatype Expr =
    | Assign(name: Token, value: Expr)
    | Binary(left: Expr, operator: Token, right: Expr)
    | Call(callee: Expr, paren: Token, arguments: seq<Expr>)
    | Grouping(expression: Expr)
    | Literal(literal: Value)
    | Logical(left: Expr, operator: Token, right: Expr)
    | Variable(name: Token)
    | Unary(operator: Token, right: Expr)

  /**
   * Whether every node of `e` is a binary, grouping, literal or unary node:
   * the kinds the parser builds and the interpreter and printer visit.
   */
  predicate Handled(e: Expr) {
    match e
    case Binary(left, _, right) => Handled(left) && Handled(right)
    case Grouping(inner) => Handled(inner)
    case Literal(_) => true
    case Unary(_, right) => Handled(right)
    case _ => false
  }

  /** The two statement forms; nothing in the interpreter executes them. */
  datatype Stmt = ExpressionStmt(expression: Expr) | PrintStmt(expression: Expr)

  /** The eight methods of `Expr.Visitor`. */
  datatype VisitMethod =
    VisitAssign | VisitBinary | VisitCall | VisitGrouping | VisitLiteral | VisitLogical | VisitVariable | VisitUnary

  /** A visitor producing results of type `R`: one function per visit method, each given the node itself. */
  datatype Visitor<!R> = Visitor(
    visitAssign: Expr -> R,
    visitBinary: Expr -> R,
    visitCall: Expr -> R,
    visitGrouping: Expr -> R,
    visitLiteral: Expr -> R,
    visitLogical: Expr -> R,
    visitVariable: Expr -> R,
    visitUnary: Expr -> R)
  {
    /** The function this visitor supplies for method `m`. */
    function Method(m: VisitMethod): Expr -> R {
      match m
      case VisitAssign => visitAssign
      case VisitBinary => visitBinary
      case VisitCall => visitCall
      case VisitGrouping => visitGrouping
      case VisitLiteral => visitLiteral
      case VisitLogical => visitLogical
      case VisitVariable => visitVariable
      case VisitUnary => visitUnary
    }
  }

  /** The visit method each node kind is declared to be handled by. */
  function MethodFor(e: Expr): VisitMethod {
    match e
    case Assign(_, _) => VisitAssign
    case Binary(_, _, _) => VisitBinary
    case Call(_, _, _) => VisitCall
    case Grouping(_) => VisitGrouping
    case Literal(_) => VisitLiteral
    case Logical(_, _, _) => VisitLogical
    case Variable(_) => VisitVariable
    case Unary(_, _) => VisitUnary
  }

  /** `expr.accept(visitor)`: each class calls its own visit method with itself. */
  function Accept<R>(e: Expr, v: Visitor<R>): R {
    match e
    case Assign(_, _) => v.visitAssign(e)
    case Binary(_, _, _) => v.visitBinary(e)
    case Call(_, _, _) => v.visitCall(e)
    case Grouping(_) => v.visitGrouping(e)
    case Literal(_) => v.visitLiteral(e)
    case Logical(_, _, _) => v.visitLogical(e)
    case Variable(_) => v.visitVariable(e)
    case Unary(_, _) => v.visitUnary(e)
  }

  /**
   * `accept` calls exactly the visit method of the node's own kind, passes it
   * the node itself, and returns its result: two visitors that agree on that
   * one method give the same result, whatever their other methods do.
   */
  lemma {:induction false} AcceptDispatchesToOwnMethod<R>(e: Expr, v: Visitor<R>, w: Visitor<R>)
    ensures Accept(e, v) == v.Method(MethodFor(e))(e)
    ensures v.Method(MethodFor(e))(e) == w.Method(MethodFor(e))(e) ==> Accept(e, v) == Accept(e, w)
  {
  }

  /** Different node kinds are dispatched to different visit methods; in particular `Logical` is not `Binary`. */
  lemma {:induction false} DispatchSeparatesKinds(a: Expr, b: Expr)
    ensures MethodFor(a) == MethodFor(b) <==>
      (a.Assign? && b.Assign?) || (a.Binary? && b.Binary?) || (a.Call? && b.Call?) ||
      (a.Grouping? && b.Grouping?) || (a.Literal? && b.Literal?) || (a.Logical? && b.Logical?) ||
      (a.Variable? && b.Variable?) || (a.Unary? && b.Unary?)
  {
  }
}
