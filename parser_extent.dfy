/**
 * How far the binary rules of pylox/parser/parser.py parse.  Each level's
 * `while self.match(...)` loop goes on as long as one of its operators
 * follows, and its operands do the same for the tighter levels; so a rule
 * that succeeds stops only in front of a token that is no operator of its
 * own level or of a tighter one.
 */
module ParsingExtent {
  import opened Tokens
  import opened Ast
  import opened Parsing

  /** No operator of a level of rank `n` or tighter is at `pos`. */
  predicate NoOperatorUpTo(toks: seq<Token>, pos: nat, n: nat)
    requires pos < |toks|
  {
    forall l: Level :: Rank(l) <= n ==> !MatchesAny(toks, pos, Operators(l))
  }

  /**
   * `expression()` stops only in front of a token that no binary level
   * accepts: after a successful parse, none of `!=`, `==`, `>`, `>=`, `<`,
   * `<=`, `-`, `+`, `/`, `*` is next (or the next token is EOF).
   */
  lemma {:induction false} ExpressionStops(toks: seq<Token>, pos: nat)
    requires WellFormed(toks) && pos < |toks|
    ensures var r := ExpressionP(toks, pos);
      r.Parsed? ==> forall l: Level :: !MatchesAny(toks, r.next, Operators(l))
    decreases |toks| - pos, 10
  {
    BinaryStops(toks, pos, EqualityLevel);
  }

  /** A level's rule stops in front of no operator of that level or a tighter one. */
  lemma {:induction false} BinaryStops(toks: seq<Token>, pos: nat, lv: Level)
    requires WellFormed(toks) && pos < |toks|
    ensures var r := BinaryP(toks, pos, lv); r.Parsed? ==> NoOperatorUpTo(toks, r.next, Rank(lv))
    decreases |toks| - pos, 2 * Rank(lv) + 1
  {
    OperandStops(toks, pos, lv);
    var left := OperandP(toks, pos, lv);
    if left.Parsed? {
      LoopStops(toks, lv, left.expr, left.next);
    }
  }

  /** The operand of a level stops in front of no operator of a strictly tighter level. */
  lemma {:induction false} OperandStops(toks: seq<Token>, pos: nat, lv: Level)
    requires WellFormed(toks) && pos < |toks|
    ensures var r := OperandP(toks, pos, lv); r.Parsed? ==> NoOperatorUpTo(toks, r.next, Rank(lv) - 1)
    decreases |toks| - pos, 2 * Rank(lv)
  {
    if lv != FactorLevel {
      BinaryStops(toks, pos, Tighter(lv));
    }
  }

  /**
   * The loop of level `lv`, entered where the tighter levels have stopped,
   * ends only where its own `match` fails as well: it folds every operator
   * of its level that follows.
   */
  lemma {:induction false} LoopStops(toks: seq<Token>, lv: Level, left: Expr, pos: nat)
    requires WellFormed(toks) && pos < |toks| && NoOperatorUpTo(toks, pos, Rank(lv) - 1)
    ensures var r := BinaryLoop(toks, lv, left, pos); r.Parsed? ==> NoOperatorUpTo(toks, r.next, Rank(lv))
    decreases |toks| - pos, 0
  {
    if MatchesAny(toks, pos, Operators(lv)) {
      OperandStops(toks, pos + 1, lv);
      var right := OperandP(toks, pos + 1, lv);
      if right.Parsed? {
        LoopStops(toks, lv, Binary(left, toks[pos], right.expr), right.next);
      }
    } else {
      OwnRankIsOwnLevel(lv);
    }
  }

  /** Only `lv` itself has the rank of `lv`. */
  lemma {:induction false} OwnRankIsOwnLevel(lv: Level)
    ensures forall l: Level :: Rank(l) == Rank(lv) ==> l == lv
  {
    forall l: Level | Rank(l) == Rank(lv)
      ensures l == lv
    {
      match l
      case EqualityLevel =>
      case ComparisonLevel =>
      case TermLevel =>
      case FactorLevel =>
    }
  }
}
