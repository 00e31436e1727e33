/**
 * The tree-walking evaluator of pylox/interpreter/interpreter.py.
 *
 * The `visit_*` methods become the cases of `Evaluate`; a raised
 * `RuntimeException` becomes `Err(RuntimeError(token, message))`.  Numbers
 * are exact reals: the rounding of IEEE doubles is not part of this model.
 */
module Interpreting {
  import opened Tokens
  import opened Ast
  import opened Runtime

  const NumberOperand: string := "Operand must be a number."
  const NumbersOrStrings: string := "Operand must be two numbers or two strings."

  /** `is_truthy(obj)` */
  predicate IsTruthy(v: Value) {
    match v
    case NilValue => false
    case BoolValue(b) => b
    case _ => true
  }

  /** The number a Python `bool` stands for when compared with a `float`. */
  function BoolNumber(b: bool): real {
    if b then 1.0 else 0.0
  }

  /**
   * Python's `==` on two runtime values: a `bool` is an `int`, so it equals
   * the float with its numeric value; values of other different kinds differ.
   */
  predicate PyEquals(a: Value, b: Value) {
    match (a, b)
    case (NumValue(x), BoolValue(p)) => x == BoolNumber(p)
    case (BoolValue(p), NumValue(x)) => x == BoolNumber(p)
    case _ => a == b
  }

  /** `is_equal(a, b)` */
  predicate IsEqual(a: Value, b: Value) {
    if a.NilValue? && b.NilValue? then true
    else if a.NilValue? then false
    else PyEquals(a, b)
  }

  /** `check_number_operand(operator, operand)`: the number, or the error naming the operator. */
  function CheckNumberOperand(operator: Token, operand: Value): Result<real> {
    if operand.NumValue? then Ok(operand.n) else Err(RuntimeError(operator, NumberOperand))
  }

  /** `check_number_operands(operator, left, right)` */
  function CheckNumberOperands(operator: Token, left: Value, right: Value): Result<(real, real)> {
    if left.NumValue? && right.NumValue? then Ok((left.n, right.n)) else Err(RuntimeError(operator, NumberOperand))
  }

  /** The rest of `visit_unary` once the operand is evaluated: `nil` (Python's `None`) for an operator it does not handle. */
  function UnaryOp(operator: Token, right: Value): Result<Value> {
    if operator.tokenType == Minus then
      var c := CheckNumberOperand(operator, right);
      if c.Err? then Err(c.fault) else Ok(NumValue(-c.value))
    else if operator.tokenType == Bang then Ok(BoolValue(!IsTruthy(right)))
    else Ok(NilValue)
  }

  /** The operators `visit_binary` checks with `check_number_operands`. */
  const NumericOperators: set<TokenType> := {Greater, GreaterEqual, Less, LessEqual, Minus, Slash, Star}

  /** Python's float `/`: a zero divisor raises `ZeroDivisionError`. */
  function Divide(a: real, b: real): Result<Value> {
    if b == 0.0 then Err(HostException("ZeroDivisionError")) else Ok(NumValue(a / b))
  }

  /** A numeric operator on two numbers, after `check_number_operands` has passed. */
  function NumberOp(t: TokenType, x: real, y: real): Result<Value> {
    match t
    case Greater => Ok(BoolValue(x > y))
    case GreaterEqual => Ok(BoolValue(x >= y))
    case Less => Ok(BoolValue(x < y))
    case LessEqual => Ok(BoolValue(x <= y))
    case Minus => Ok(NumValue(x - y))
    case Slash => Divide(x, y)
    case Star => Ok(NumValue(x * y))
    case _ => Ok(NilValue)
  }

  /**
   * The rest of `visit_binary` once both operands are evaluated: `nil`
   * (Python's `None`) for an operator it does not handle.  The operator
   * tests of the source are mutually exclusive, so their order is immaterial.
   */
  function BinaryOp(operator: Token, left: Value, right: Value): Result<Value> {
    var t := operator.tokenType;
    if t == BangEqual then Ok(BoolValue(!IsEqual(left, right)))
    else if t == EqualEqual then Ok(BoolValue(IsEqual(left, right)))
    else if t == Plus then
      if left.NumValue? && right.NumValue? then Ok(NumValue(left.n + right.n))
      else if left.StrValue? && right.StrValue? then Ok(StrValue(left.s + right.s))
      else Err(RuntimeError(operator, NumbersOrStrings))
    else if t in NumericOperators then
      var c := CheckNumberOperands(operator, left, right);
      if c.Err? then Err(c.fault) else NumberOp(t, c.value.0, c.value.1)
    else Ok(NilValue)
  }

  /**
   * `evaluate(expr)`: `expr.accept(self)` with the interpreter's visit
   * methods.  It has none for assignments, calls, logical operators or
   * variables, so those raise `AttributeError`.
   */
  function Evaluate(e: Expr): Result<Value> {
    match e
    case Literal(v) => Ok(v)
    case Grouping(inner) => Evaluate(inner)
    case Unary(operator, right) =>
      var r := Evaluate(right);
      if r.Err? then r else UnaryOp(operator, r.value)
    case Binary(left, operator, right) =>
      var r := Evaluate(right);
      if r.Err? then r
      else
        var l := Evaluate(left);
        if l.Err? then l else BinaryOp(operator, l.value, r.value)
    case _ => Err(HostException("AttributeError"))
  }

  /** Whether `text` ends in ".0". */
  predicate EndsWithPointZero(text: string) {
    |text| >= 2 && text[|text| - 2..] == ".0"
  }

  /** The number branch of `stringify`: drop a trailing ".0". */
  function StripPointZero(text: string): string {
    if EndsWithPointZero(text) then text[..|text| - 2] else text
  }

  /**
   * `stringify(obj)`, with Python's `str(float)` as the parameter `numText`:
   * "nil", the number text without a trailing ".0", `str(bool)`, or the string itself.
   */
  function Stringify(v: Value, numText: real -> string): string {
    match v
    case NilValue => "nil"
    case NumValue(n) => StripPointZero(numText(n))
    case BoolValue(b) => if b then "True" else "False"
    case StrValue(s) => s
  }
}
