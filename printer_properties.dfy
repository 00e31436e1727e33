/**
 * Properties of the printer in module Printing: which trees it can print,
 * the shape of every parenthesised form, and the example tree of
 * tests/ast_printer_test.py.
 */
module PrintingProperties {
  import opened Wrappers
  import opened Tokens
  import opened Ast
  import opened Printing

  /** The printer prints a tree exactly when every node has one of its four visit methods. */
  lemma {:induction false} PrintsIffHandled(e: Expr, numText: real -> string)
    ensures Printed(e, numText).Some? <==> Handled(e)
  {
    match e
    case Binary(left, _, right) =>
      PrintsIffHandled(left, numText);
      PrintsIffHandled(right, numText);
    case Grouping(inner) =>
      PrintsIffHandled(inner, numText);
    case Unary(_, right) =>
      PrintsIffHandled(right, numText);
    case _ =>
  }

  /** The parts appear in order, each preceded by a single space. */
  lemma {:induction false} SpacedParts(parts: seq<string>)
    ensures |Spaced(parts)| >= |parts|
    ensures |parts| > 0 ==> Spaced(parts)[0] == ' '
    ensures |parts| > 0 ==> Spaced(parts) == " " + parts[0] + Spaced(parts[1..])
  {
    if |parts| > 1 {
      var init := parts[..|parts| - 1];
      SpacedParts(init);
      assert init[1..] == parts[1..][..|parts[1..]| - 1];
    } else if |parts| == 1 {
      assert Spaced(parts[..0]) == "";
    }
  }

  /**
   * `parenthesize(name, ...)` starts with "(" and `name`, ends with ")", and
   * contains the operand texts in argument order, each after one space.
   */
  lemma {:induction false} ParenthesizedShape(name: string, parts: seq<string>)
    ensures var s := Parenthesized(name, parts);
      && s[0] == '('
      && s[1..1 + |name|] == name
      && s[|s| - 1] == ')'
    ensures |parts| == 1 ==> Parenthesized(name, parts) == "(" + name + " " + parts[0] + ")"
    ensures |parts| == 2 ==> Parenthesized(name, parts) == "(" + name + " " + parts[0] + " " + parts[1] + ")"
  {
    if |parts| == 2 {
      SpacedParts(parts);
      SpacedParts(parts[1..]);
      assert parts[1..][1..] == [];
    } else if |parts| == 1 {
      SpacedParts(parts);
      assert parts[1..] == [];
    }
  }

  /** A `nil` literal prints as "nil"; any other literal as the `str` text of its value. */
  lemma {:induction false} LiteralPrints(v: Value, numText: real -> string)
    ensures v.NilValue? ==> Printed(Literal(v), numText) == Some("nil")
    ensures v.StrValue? ==> Printed(Literal(v), numText) == Some(v.s)
    ensures v.NumValue? ==> Printed(Literal(v), numText) == Some(numText(v.n))
    ensures v.BoolValue? ==> Printed(Literal(v), numText) == Some(if v.b then "True" else "False")
  {
  }

  /** A binary node prints as "(" + operator + " " + left + " " + right + ")". */
  lemma {:induction false} BinaryPrints(left: Expr, operator: Token, right: Expr, numText: real -> string)
    requires Printed(left, numText).Some? && Printed(right, numText).Some?
    ensures Printed(Binary(left, operator, right), numText)
      == Some("(" + operator.lexeme + " " + Printed(left, numText).value + " " + Printed(right, numText).value + ")")
  {
    ParenthesizedShape(operator.lexeme, [Printed(left, numText).value, Printed(right, numText).value]);
  }

  /** A grouping prints as "(group " + inner + ")". */
  lemma {:induction false} GroupingPrints(inner: Expr, numText: real -> string)
    requires Printed(inner, numText).Some?
    ensures Printed(Grouping(inner), numText) == Some("(group " + Printed(inner, numText).value + ")")
  {
    ParenthesizedShape("group", [Printed(inner, numText).value]);
    assert "(" + "group" + " " == "(group ";
  }

  /** A unary node prints as "(" + operator + " " + operand + ")". */
  lemma {:induction false} UnaryPrints(operator: Token, right: Expr, numText: real -> string)
    requires Printed(right, numText).Some?
    ensures Printed(Unary(operator, right), numText) == Some("(" + operator.lexeme + " " + Printed(right, numText).value + ")")
  {
    ParenthesizedShape(operator.lexeme, [Printed(right, numText).value]);
  }

  /** The left operand of the example tree. */
  lemma {:induction false} NegatedPrints(numText: real -> string)
    requires numText(123.0) == "123"
    ensures Printed(Unary(Token(Minus, "-", NilValue, 1), Literal(NumValue(123.0))), numText) == Some("(- 123)")
  {
    UnaryPrints(Token(Minus, "-", NilValue, 1), Literal(NumValue(123.0)), numText);
    assert "(" + "-" + " " + "123" + ")" == "(- 123)";
  }

  /** The right operand of the example tree. */
  lemma {:induction false} GroupedPrints(numText: real -> string)
    requires numText(45.67) == "45.67"
    ensures Printed(Grouping(Literal(NumValue(45.67))), numText) == Some("(group 45.67)")
  {
    GroupingPrints(Literal(NumValue(45.67)), numText);
    assert "(group " + "45.67" + ")" == "(group 45.67)";
  }

  /**
   * The tree built in tests/ast_printer_test.py prints as
   * "(* (- 123) (group 45.67))", given that `str` renders its two numbers
   * as "123" and "45.67".
   */
  lemma {:induction false} TestExpression(numText: real -> string)
    requires numText(123.0) == "123" && numText(45.67) == "45.67"
    ensures var e := Binary(
        Unary(Token(Minus, "-", NilValue, 1), Literal(NumValue(123.0))),
        Token(Star, "*", NilValue, 1),
        Grouping(Literal(NumValue(45.67))));
      Printed(e, numText) == Some("(* (- 123) (group 45.67))")
  {
    var negated := Unary(Token(Minus, "-", NilValue, 1), Literal(NumValue(123.0)));
    var grouped := Grouping(Literal(NumValue(45.67)));
    NegatedPrints(numText);
    GroupedPrints(numText);
    BinaryPrints(negated, Token(Star, "*", NilValue, 1), grouped, numText);
    ExampleText();
  }

  /** The concatenation `BinaryPrints` gives for the example tree. */
  lemma {:induction false} ExampleText()
    ensures "(" + "*" + " " + "(- 123)" + " " + "(group 45.67)" + ")" == "(* (- 123) (group 45.67))"
  {
  }
}
