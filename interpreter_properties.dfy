/**
 * Properties of the evaluator in module Interpreting: what truthiness and
 * equality mean, which operand kinds each operator accepts, the order in
 * which operands are evaluated, and which token a run-time error blames.
 */
module InterpretingProperties {
  import opened Tokens
  import opened Ast
  import opened Runtime
  import opened Interpreting

  /** Only `nil` and `false` are falsey. */
  lemma {:induction false} TruthyUnlessNilOrFalse(v: Value)
    ensures IsTruthy(v) <==> v != NilValue && v != BoolValue(false)
  {
  }

  /**
   * Equality is structural equality of values, except that a boolean equals
   * the number 1 or 0 it stands for in Python; `nil` equals only `nil`.  It
   * is symmetric and reflexive.
   */
  lemma {:induction false} EqualityCases(a: Value, b: Value)
    ensures IsEqual(a, b) <==>
      a == b
      || (a.NumValue? && b.BoolValue? && a.n == BoolNumber(b.b))
      || (a.BoolValue? && b.NumValue? && b.n == BoolNumber(a.b))
    ensures IsEqual(a, b) == IsEqual(b, a)
    ensures IsEqual(a, a)
    ensures a.NilValue? || b.NilValue? ==> (IsEqual(a, b) <==> a.NilValue? && b.NilValue?)
  {
  }

  /** `==` and `!=` accept operands of any kinds, and `!=` is the negation of `==`. */
  lemma {:induction false} NotEqualNegatesEqual(ne: Token, eq: Token, left: Value, right: Value)
    requires ne.tokenType == BangEqual && eq.tokenType == EqualEqual
    ensures BinaryOp(eq, left, right).Ok? && BinaryOp(eq, left, right).value.BoolValue?
    ensures BinaryOp(ne, left, right).Ok? && BinaryOp(ne, left, right).value.BoolValue?
    ensures BinaryOp(ne, left, right).value.b == !BinaryOp(eq, left, right).value.b
    ensures BinaryOp(eq, left, right).value.b <==> IsEqual(left, right)
  {
  }

  /** The numeric operators that compare, and so produce booleans. */
  predicate Comparison(t: TokenType) {
    t in {Greater, GreaterEqual, Less, LessEqual}
  }

  /**
   * A numeric operator fails with "Operand must be a number." blaming its own
   * token exactly when an operand is not a number; otherwise a comparison
   * gives a boolean and an arithmetic operator a number, except that dividing
   * by zero raises Python's `ZeroDivisionError`.
   */
  lemma {:induction false} NumericOperatorsNeedNumbers(operator: Token, left: Value, right: Value)
    requires operator.tokenType in NumericOperators
    ensures BinaryOp(operator, left, right) == Err(RuntimeError(operator, NumberOperand)) <==>
      !(left.NumValue? && right.NumValue?)
    ensures left.NumValue? && right.NumValue? && operator.tokenType == Slash && right.n == 0.0 ==>
      BinaryOp(operator, left, right) == Err(HostException("ZeroDivisionError"))
    ensures left.NumValue? && right.NumValue? && !(operator.tokenType == Slash && right.n == 0.0) ==>
      BinaryOp(operator, left, right).Ok? &&
      (Comparison(operator.tokenType) <==> BinaryOp(operator, left, right).value.BoolValue?) &&
      (!Comparison(operator.tokenType) <==> BinaryOp(operator, left, right).value.NumValue?)
  {
  }

  /** The results of the numeric operators on two numbers `x` and `y`. */
  lemma {:induction false} NumericResults(operator: Token, x: real, y: real)
    ensures operator.tokenType == Greater ==> BinaryOp(operator, NumValue(x), NumValue(y)) == Ok(BoolValue(x > y))
    ensures operator.tokenType == GreaterEqual ==> BinaryOp(operator, NumValue(x), NumValue(y)) == Ok(BoolValue(x >= y))
    ensures operator.tokenType == Less ==> BinaryOp(operator, NumValue(x), NumValue(y)) == Ok(BoolValue(x < y))
    ensures operator.tokenType == LessEqual ==> BinaryOp(operator, NumValue(x), NumValue(y)) == Ok(BoolValue(x <= y))
    ensures operator.tokenType == Minus ==> BinaryOp(operator, NumValue(x), NumValue(y)) == Ok(NumValue(x - y))
    ensures operator.tokenType == Star ==> BinaryOp(operator, NumValue(x), NumValue(y)) == Ok(NumValue(x * y))
    ensures operator.tokenType == Slash && y != 0.0 ==>
      BinaryOp(operator, NumValue(x), NumValue(y)) == Ok(NumValue(x / y))
  {
    if operator.tokenType in NumericOperators {
      assert BinaryOp(operator, NumValue(x), NumValue(y)) == NumberOp(operator.tokenType, x, y);
    }
  }

  /**
   * `+` adds two numbers or concatenates two strings, and fails with
   * "Operand must be two numbers or two strings." on any other pair.
   */
  lemma {:induction false} PlusCases(operator: Token, left: Value, right: Value)
    requires operator.tokenType == Plus
    ensures BinaryOp(operator, left, right).Ok? <==>
      (left.NumValue? && right.NumValue?) || (left.StrValue? && right.StrValue?)
    ensures BinaryOp(operator, left, right).Err? ==>
      BinaryOp(operator, left, right).fault == RuntimeError(operator, NumbersOrStrings)
    ensures left.StrValue? && right.StrValue? ==>
      var r := BinaryOp(operator, left, right).value;
      r.StrValue? && |r.s| == |left.s| + |right.s| && r.s[..|left.s|] == left.s && r.s[|left.s|..] == right.s
    ensures left.NumValue? && right.NumValue? ==> BinaryOp(operator, left, right) == Ok(NumValue(left.n + right.n))
  {
  }

  /**
   * Unary `-` fails with "Operand must be a number." exactly when its operand
   * is not a number; `!` never fails.
   */
  lemma {:induction false} UnaryCases(operator: Token, right: Value)
    ensures operator.tokenType == Minus ==>
      (UnaryOp(operator, right) == Err(RuntimeError(operator, NumberOperand)) <==> !right.NumValue?)
    ensures operator.tokenType == Minus && right.NumValue? ==> UnaryOp(operator, right) == Ok(NumValue(-right.n))
    ensures operator.tokenType == Bang ==> UnaryOp(operator, right) == Ok(BoolValue(!IsTruthy(right)))
  {
  }

  /**
   * `visit_binary` evaluates the right operand before the left one: an error
   * on the right is the one reported, even when the left would fail too.
   */
  lemma {:induction false} RightOperandFirst(left: Expr, operator: Token, right: Expr)
    ensures Evaluate(right).Err? ==> Evaluate(Binary(left, operator, right)) == Evaluate(right)
    ensures Evaluate(right).Ok? && Evaluate(left).Err? ==> Evaluate(Binary(left, operator, right)) == Evaluate(left)
    ensures Evaluate(right).Ok? && Evaluate(left).Ok? ==>
      Evaluate(Binary(left, operator, right)) == BinaryOp(operator, Evaluate(left).value, Evaluate(right).value)
  {
  }

  /** Parentheses do not change a value, and `- -e` is `e` for an `e` that is a number or fails. */
  lemma {:induction false} DoubleNegation(minus: Token, e: Expr)
    requires minus.tokenType == Minus
    ensures Evaluate(Grouping(e)) == Evaluate(e)
    ensures Evaluate(e).Err? || Evaluate(e).value.NumValue? ==>
      Evaluate(Unary(minus, Unary(minus, e))) == Evaluate(e)
    ensures Evaluate(e).Ok? && !Evaluate(e).value.NumValue? ==>
      Evaluate(Unary(minus, Unary(minus, e))) == Err(RuntimeError(minus, NumberOperand))
  {
  }

  /** `!!e` is the truthiness of `e`'s value. */
  lemma {:induction false} DoubleBang(bang: Token, e: Expr)
    requires bang.tokenType == Bang
    ensures Evaluate(e).Ok? ==> Evaluate(Unary(bang, Unary(bang, e))) == Ok(BoolValue(IsTruthy(Evaluate(e).value)))
  {
  }

  /** Assignments, calls, logical operators and variables have no visit method in the interpreter. */
  lemma {:induction false} UnhandledKinds(e: Expr)
    requires e.Assign? || e.Call? || e.Logical? || e.Variable?
    ensures Evaluate(e) == Err(HostException("AttributeError"))
  {
  }

  /** A tree made of the four kinds the interpreter visits never meets a missing visit method. */
  lemma {:induction false} HandledHasVisitMethods(e: Expr)
    requires Handled(e)
    ensures Evaluate(e) != Err(HostException("AttributeError"))
  {
    match e
    case Literal(_) =>
    case Grouping(inner) =>
      HandledHasVisitMethods(inner);
    case Unary(operator, right) =>
      HandledHasVisitMethods(right);
    case Binary(left, operator, right) =>
      HandledHasVisitMethods(left);
      HandledHasVisitMethods(right);
      if Evaluate(left).Ok? && Evaluate(right).Ok? {
        NoAttributeErrorFromOperators(operator, Evaluate(left).value, Evaluate(right).value);
      }
  }

  /** Applying an operator to values raises only Lox errors or `ZeroDivisionError`. */
  lemma {:induction false} NoAttributeErrorFromOperators(operator: Token, left: Value, right: Value)
    ensures BinaryOp(operator, left, right).Err? ==>
      BinaryOp(operator, left, right).fault.RuntimeError? ||
      BinaryOp(operator, left, right).fault == HostException("ZeroDivisionError")
    ensures UnaryOp(operator, right).Err? ==> UnaryOp(operator, right).fault.RuntimeError?
  {
  }

  /** Arithmetic on number literals: literals, parentheses, negation, `+`, `-` and `*`. */
  predicate Arithmetic(e: Expr) {
    match e
    case Literal(v) => v.NumValue?
    case Grouping(inner) => Arithmetic(inner)
    case Unary(operator, right) => operator.tokenType == Minus && Arithmetic(right)
    case Binary(left, operator, right) =>
      operator.tokenType in {Plus, Minus, Star} && Arithmetic(left) && Arithmetic(right)
    case _ => false
  }

  /** The number an arithmetic expression denotes. */
  function Denote(e: Expr): real
    requires Arithmetic(e)
  {
    match e
    case Literal(v) => v.n
    case Grouping(inner) => Denote(inner)
    case Unary(_, right) => -Denote(right)
    case Binary(left, operator, right) => Combine(operator.tokenType, Denote(left), Denote(right))
  }

  /** `+`, `-` and `*` applied to the value of each operand combines the two numbers. */
  function Combine(t: TokenType, x: real, y: real): real {
    if t == Plus then x + y else if t == Minus then x - y else x * y
  }

  /** A `+`, `-` or `*` node whose operands evaluate to numbers evaluates to their combination. */
  lemma {:induction false} BinaryOfNumbers(left: Expr, operator: Token, right: Expr, x: real, y: real)
    requires operator.tokenType in {Plus, Minus, Star}
    requires Evaluate(left) == Ok(NumValue(x)) && Evaluate(right) == Ok(NumValue(y))
    ensures Evaluate(Binary(left, operator, right)) == Ok(NumValue(Combine(operator.tokenType, x, y)))
  {
    NumericResults(operator, x, y);
  }

  /** Arithmetic on number literals never fails, and evaluates to the number it denotes. */
  lemma {:induction false} ArithmeticEvaluates(e: Expr)
    requires Arithmetic(e)
    ensures Evaluate(e) == Ok(NumValue(Denote(e)))
  {
    match e
    case Literal(v) =>
    case Grouping(inner) =>
      ArithmeticEvaluates(inner);
    case Unary(operator, right) =>
      ArithmeticEvaluates(right);
    case Binary(left, operator, right) =>
      ArithmeticEvaluates(left);
      ArithmeticEvaluates(right);
      BinaryOfNumbers(left, operator, right, Denote(left), Denote(right));
  }

  /** The operator tokens of the unary and binary nodes of `e`. */
  function OperatorTokens(e: Expr): set<Token> {
    match e
    case Unary(operator, right) => {operator} + OperatorTokens(right)
    case Binary(left, operator, right) => {operator} + OperatorTokens(left) + OperatorTokens(right)
    case Grouping(inner) => OperatorTokens(inner)
    case _ => {}
  }

  /**
   * A Lox run-time error always blames an operator token of the expression
   * being evaluated, with one of the two operand messages.
   */
  lemma {:induction false} RuntimeErrorsBlameAnOperator(e: Expr)
    ensures Evaluate(e).Err? && Evaluate(e).fault.RuntimeError? ==>
      Evaluate(e).fault.token in OperatorTokens(e) &&
      Evaluate(e).fault.message in {NumberOperand, NumbersOrStrings}
  {
    match e
    case Grouping(inner) =>
      RuntimeErrorsBlameAnOperator(inner);
    case Unary(operator, right) =>
      RuntimeErrorsBlameAnOperator(right);
      if Evaluate(right).Ok? {
        OperatorsBlameThemselves(operator, Evaluate(right).value, Evaluate(right).value);
      }
    case Binary(left, operator, right) =>
      RuntimeErrorsBlameAnOperator(left);
      RuntimeErrorsBlameAnOperator(right);
      if Evaluate(left).Ok? && Evaluate(right).Ok? {
        OperatorsBlameThemselves(operator, Evaluate(left).value, Evaluate(right).value);
      }
    case _ =>
  }

  /** The run-time errors an operator raises carry its own token and one of the two operand messages. */
  lemma {:induction false} OperatorsBlameThemselves(operator: Token, left: Value, right: Value)
    ensures var r := BinaryOp(operator, left, right);
      r.Err? && r.fault.RuntimeError? ==> r.fault.token == operator && r.fault.message in {NumberOperand, NumbersOrStrings}
    ensures var r := UnaryOp(operator, right);
      r.Err? && r.fault.RuntimeError? ==> r.fault.token == operator && r.fault.message == NumberOperand
  {
  }

  /** `stringify` drops a trailing ".0" from a number's text and nothing else. */
  lemma {:induction false} StripOnlyPointZero(text: string)
    ensures EndsWithPointZero(text) ==> StripPointZero(text) + ".0" == text
    ensures !EndsWithPointZero(text) ==> StripPointZero(text) == text
  {
    if EndsWithPointZero(text) {
      assert text == text[..|text| - 2] + text[|text| - 2..];
    }
  }

  /** `stringify` of each kind of value. */
  lemma {:induction false} StringifyCases(v: Value, numText: real -> string)
    ensures v.NilValue? ==> Stringify(v, numText) == "nil"
    ensures v.BoolValue? ==> Stringify(v, numText) == (if v.b then "True" else "False")
    ensures v.StrValue? ==> Stringify(v, numText) == v.s
    ensures v.NumValue? && numText(v.n) == "1.0" ==> Stringify(v, numText) == "1"
    ensures v.NumValue? && numText(v.n) == "2.5" ==> Stringify(v, numText) == "2.5"
  {
  }
}
