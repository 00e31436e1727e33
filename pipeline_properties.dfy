/**
 * How the parts fit together: the scanner's output is a token list the
 * parser accepts, and every tree the parser builds is one the interpreter
 * and the printer have visit methods for.
 */
module Pipeline {
  import opened Tokens
  import opened Ast
  import opened Runtime
  import opened Scanning
  import opened ScanningProperties
  import opened Parsing
  import opened ParsingProperties
  import opened Interpreting
  import opened InterpretingProperties
  import opened Printing
  import opened PrintingProperties

  /** A tree the precedence levels allow uses only binary, grouping, literal and unary nodes. */
  lemma {:induction false} LayeredIsHandled(e: Expr, k: nat)
    requires Layered(e, k)
    ensures Handled(e)
  {
    match e
    case Binary(left, operator, right) =>
      LayeredIsHandled(left, LevelOf(operator.tokenType));
      LayeredIsHandled(right, LevelOf(operator.tokenType) - 1);
    case Unary(_, right) =>
      LayeredIsHandled(right, 0);
    case Grouping(inner) =>
      LayeredIsHandled(inner, 4);
    case Literal(_) =>
  }

  /**
   * Scanning any source gives a token list ending in EOF, which is what the
   * parser requires; an expression parsed from it can always be printed and
   * never asks the interpreter for a visit method it lacks.
   */
  lemma {:induction false} SourceToTree(src: string, numText: real -> string)
    ensures WellFormed(Tokenize(src))
    ensures var o := Outcome(ExpressionP(Tokenize(src), 0));
      o.ParsedExpression? ==>
      Handled(o.expr) && Printed(o.expr, numText).Some? && Evaluate(o.expr) != Err(HostException("AttributeError"))
  {
    var toks := Tokenize(src);
    TokenizeEndsWithEof(src);
    var r := ExpressionP(toks, 0);
    if r.Parsed? {
      ExpressionLayered(toks, 0);
      LayeredIsHandled(r.expr, 4);
      PrintsIffHandled(r.expr, numText);
      HandledHasVisitMethods(r.expr);
    }
  }
}
