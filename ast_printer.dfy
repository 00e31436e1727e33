/**
 * The Lisp-style printer of pylox/parser/ast_printer.py: every compound node
 * is printed as "(" + name + one " " + operand text per operand + ")".
 *
 * `Printed` is the text the printer produces; the methods `Print` and
 * `Parenthesize` are the printer itself, mutually recursive as in the
 * source, and are proved to return `Printed`.  `str(float)` is the
 * parameter `numText`.  A node kind without a visit method makes the printer
 * raise `AttributeError`, which is `None` here.
 */
module Printing {
  import opened Wrappers
  import opened Tokens
  import opened Ast

  /** `visit_literal`: "nil" for `None`, otherwise `str` of the value. */
  function LiteralText(v: Value, numText: real -> string): string {
    match v
    case NilValue => "nil"
    case BoolValue(b) => if b then "True" else "False"
    case NumValue(n) => numText(n)
    case StrValue(s) => s
  }

  /** `"".join(builder)` */
  function Join(builder: seq<string>): string {
    if |builder| == 0 then "" else Join(builder[..|builder| - 1]) + builder[|builder| - 1]
  }

  /** Each part preceded by one space. */
  function Spaced(parts: seq<string>): string {
    if |parts| == 0 then "" else Spaced(parts[..|parts| - 1]) + " " + parts[|parts| - 1]
  }

  /** What `parenthesize(name, ...)` returns once its operands are printed as `parts`. */
  function Parenthesized(name: string, parts: seq<string>): string {
    "(" + name + Spaced(parts) + ")"
  }

  /** The text `AstPrinter().print(e)` returns, or `None` when it raises `AttributeError`. */
  function Printed(e: Expr, numText: real -> string): Option<string> {
    match e
    case Binary(left, operator, right) =>
      var l := Printed(left, numText);
      var r := Printed(right, numText);
      if l.Some? && r.Some? then Some(Parenthesized(operator.lexeme, [l.value, r.value])) else None
    case Grouping(inner) =>
      var i := Printed(inner, numText);
      if i.Some? then Some(Parenthesized("group", [i.value])) else None
    case Literal(v) => Some(LiteralText(v, numText))
    case Unary(operator, right) =>
      var r := Printed(right, numText);
      if r.Some? then Some(Parenthesized(operator.lexeme, [r.value])) else None
    case _ => None
  }

  /** The texts of a sequence of operands, or `None` if one of them cannot be printed. */
  function PrintedAll(exprs: seq<Expr>, numText: real -> string): Option<seq<string>> {
    if |exprs| == 0 then Some([])
    else
      var init := PrintedAll(exprs[..|exprs| - 1], numText);
      var last := Printed(exprs[|exprs| - 1], numText);
      if init.Some? && last.Some? then Some(init.value + [last.value]) else None
  }

  /** The operands print exactly when each of them does, and then operand by operand. */
  lemma {:induction false} PrintedAllPointwise(exprs: seq<Expr>, numText: real -> string)
    ensures PrintedAll(exprs, numText).Some? <==> forall i :: 0 <= i < |exprs| ==> Printed(exprs[i], numText).Some?
    ensures PrintedAll(exprs, numText).Some? ==>
      |PrintedAll(exprs, numText).value| == |exprs| &&
      forall i :: 0 <= i < |exprs| ==> PrintedAll(exprs, numText).value[i] == Printed(exprs[i], numText).value
  {
    if |exprs| > 0 {
      var init := exprs[..|exprs| - 1];
      PrintedAllPointwise(init, numText);
      assert forall i :: 0 <= i < |init| ==> init[i] == exprs[i];
    }
  }

  /** A measure that decreases from a node to its operands. */
  function Size(e: Expr): nat {
    match e
    case Assign(_, value) => 1 + Size(value)
    case Binary(left, _, right) => 1 + Size(left) + Size(right)
    case Call(callee, _, _) => 1 + Size(callee)
    case Grouping(inner) => 1 + Size(inner)
    case Literal(_) => 1
    case Logical(left, _, right) => 1 + Size(left) + Size(right)
    case Variable(_) => 1
    case Unary(_, right) => 1 + Size(right)
  }

  /** `print(expr)`, dispatching to the four visit methods of the printer. */
  method Print(e: Expr, numText: real -> string) returns (r: Option<string>)
    ensures r == Printed(e, numText)
    decreases Size(e), 1
  {
    match e
    case Binary(left, operator, right) =>
      r := Parenthesize(operator.lexeme, [left, right], numText, Size(e));
      ghost var all := PrintedAll([left, right], numText);
      PrintedAllPointwise([left, right], numText);
      assert all.Some? ==> all.value == [all.value[0], all.value[1]];
    case Grouping(inner) =>
      r := Parenthesize("group", [inner], numText, Size(e));
      PrintedAllPointwise([inner], numText);
    case Literal(v) =>
      r := Some(LiteralText(v, numText));
    case Unary(operator, right) =>
      r := Parenthesize(operator.lexeme, [right], numText, Size(e));
      PrintedAllPointwise([right], numText);
    case _ =>
      r := None;
  }

  /**
   * `parenthesize(name, *exprs)`: a builder list holding "(" + name, then " "
   * and the text of each operand in turn, then ")", joined.  `bound` is a
   * ghost measure above every operand's size.
   */
  method Parenthesize(name: string, exprs: seq<Expr>, numText: real -> string, ghost bound: nat) returns (r: Option<string>)
    requires forall i :: 0 <= i < |exprs| ==> Size(exprs[i]) < bound
    ensures var parts := PrintedAll(exprs, numText);
      r == if parts.Some? then Some(Parenthesized(name, parts.value)) else None
    decreases bound, 0
  {
    var builder := ["(" + name];
    for i := 0 to |exprs|
      invariant PrintedAll(exprs[..i], numText).Some?
      invariant Join(builder) == "(" + name + Spaced(PrintedAll(exprs[..i], numText).value)
    {
      var text := Print(exprs[i], numText);
      assert exprs[..i + 1][..i] == exprs[..i];
      if text.None? {
        PrintedAllPointwise(exprs, numText);
        return None;
      }
      ghost var before := PrintedAll(exprs[..i], numText).value;
      builder := builder + [" " + text.value];
      assert PrintedAll(exprs[..i + 1], numText).value == before + [text.value];
    }
    assert exprs[..|exprs|] == exprs;
    builder := builder + [")"];
    r := Some(Join(builder));
  }
}
