/**
 * The reading order of the trees the parser of pylox/parser/parser.py
 * builds: read from left to right, a tree says exactly what the tokens it was
 * parsed from say.  The lemmas follow the recursion of `ExpressionP` …
 * `PrimaryP`, as the layering lemmas of `ParsingProperties` do.
 */
module ParsingOrder {
  import opened Tokens
  import opened Ast
  import opened Parsing
  import opened ParsingProperties

  /**
   * What a tree or a token list says when read from left to right: literal
   * payloads, operator tokens and the two parentheses.
   */
  datatype Item = LiteralItem(v: Value) | OperatorItem(t: Token) | OpenParen | CloseParen

  /** How one token reads: a literal token as its payload, a parenthesis as itself, any other token as an operator. */
  function ItemOf(t: Token): Item {
    if t.tokenType == False then LiteralItem(BoolValue(false))
    else if t.tokenType == True then LiteralItem(BoolValue(true))
    else if t.tokenType == Nil then LiteralItem(NilValue)
    else if t.tokenType in {Number, String} then LiteralItem(t.literal)
    else if t.tokenType == LeftParen then OpenParen
    else if t.tokenType == RightParen then CloseParen
    else OperatorItem(t)
  }

  /** How the tokens `toks[a..b]` read. */
  function Items(toks: seq<Token>, a: nat, b: nat): seq<Item>
    requires a <= b <= |toks|
    decreases b - a
  {
    if a == b then [] else Items(toks, a, b - 1) + [ItemOf(toks[b - 1])]
  }

  lemma {:induction false} ItemsSplit(toks: seq<Token>, a: nat, m: nat, b: nat)
    requires a <= m <= b <= |toks|
    ensures Items(toks, a, b) == Items(toks, a, m) + Items(toks, m, b)
    decreases b - m
  {
    if m < b {
      ItemsSplit(toks, a, m, b - 1);
    }
  }

  /** Items(toks, a, b) read token `toks[a]` first. */
  lemma {:induction false} ItemsFirst(toks: seq<Token>, a: nat, b: nat)
    requires a < b <= |toks|
    ensures Items(toks, a, b) == [ItemOf(toks[a])] + Items(toks, a + 1, b)
  {
    ItemsSplit(toks, a, a + 1, b);
    assert Items(toks, a, a + 1) == [ItemOf(toks[a])];
  }

  /**
   * How a tree reads in order: each operand where it stands, each operator
   * between or before its operands, a grouping inside its parentheses.  The
   * kinds the parser never builds read as nothing.
   */
  function Reading(e: Expr): seq<Item> {
    match e
    case Literal(v) => [LiteralItem(v)]
    case Grouping(inner) => [OpenParen] + Reading(inner) + [CloseParen]
    case Unary(operator, right) => [OperatorItem(operator)] + Reading(right)
    case Binary(left, operator, right) => Reading(left) + [OperatorItem(operator)] + Reading(right)
    case _ => []
  }

  /**
   * The parser loses, adds and reorders nothing: the tree `expression()`
   * builds reads exactly as the tokens it consumed, operands and operators in
   * source order.  With `ExpressionLayered` this fixes the tree: the order of
   * the leaves comes from here, the nesting from the precedence levels.
   */
  lemma {:induction false} ExpressionReads(toks: seq<Token>, pos: nat)
    requires WellFormed(toks) && pos < |toks|
    ensures var r := ExpressionP(toks, pos); r.Parsed? ==> Reading(r.expr) == Items(toks, pos, r.next)
    decreases |toks| - pos, 10
  {
    BinaryReads(toks, pos, EqualityLevel);
  }

  lemma {:induction false} BinaryReads(toks: seq<Token>, pos: nat, lv: Level)
    requires WellFormed(toks) && pos < |toks|
    ensures var r := BinaryP(toks, pos, lv); r.Parsed? ==> Reading(r.expr) == Items(toks, pos, r.next)
    decreases |toks| - pos, 2 * Rank(lv) + 1
  {
    var left := OperandP(toks, pos, lv);
    OperandReads(toks, pos, lv);
    if left.Parsed? {
      LoopReads(toks, lv, left.expr, pos, left.next);
    }
  }

  lemma {:induction false} OperandReads(toks: seq<Token>, pos: nat, lv: Level)
    requires WellFormed(toks) && pos < |toks|
    ensures var r := OperandP(toks, pos, lv); r.Parsed? ==> Reading(r.expr) == Items(toks, pos, r.next)
    decreases |toks| - pos, 2 * Rank(lv)
  {
    if lv == FactorLevel {
      UnaryReads(toks, pos);
    } else {
      BinaryReads(toks, pos, Tighter(lv));
    }
  }

  /**
   * The loop of level `lv`, entered with a tree `left` that reads as
   * `toks[start..pos]`, ends with a tree that reads as everything consumed
   * from `start`: each turn appends the operator and then the new operand.
   */
  lemma {:induction false} LoopReads(toks: seq<Token>, lv: Level, left: Expr, start: nat, pos: nat)
    requires WellFormed(toks) && start <= pos < |toks|
    requires Reading(left) == Items(toks, start, pos)
    ensures var r := BinaryLoop(toks, lv, left, pos); r.Parsed? ==> Reading(r.expr) == Items(toks, start, r.next)
    decreases |toks| - pos, 1
  {
    if MatchesAny(toks, pos, Operators(lv)) {
      TurnReads(toks, lv, left, start, pos);
      var right := OperandP(toks, pos + 1, lv);
      if right.Parsed? {
        LoopReads(toks, lv, Binary(left, toks[pos], right.expr), start, right.next);
      }
    }
  }

  /** One turn of the loop: the operator `toks[pos]` and the operand after it extend what `left` reads. */
  lemma {:induction false} TurnReads(toks: seq<Token>, lv: Level, left: Expr, start: nat, pos: nat)
    requires WellFormed(toks) && start <= pos < |toks|
    requires MatchesAny(toks, pos, Operators(lv)) && Reading(left) == Items(toks, start, pos)
    ensures var right := OperandP(toks, pos + 1, lv);
      right.Parsed? ==> Reading(Binary(left, toks[pos], right.expr)) == Items(toks, start, right.next)
    decreases |toks| - pos, 0
  {
    OperandReads(toks, pos + 1, lv);
    var right := OperandP(toks, pos + 1, lv);
    if right.Parsed? {
      OperatorsReadAsOperators(lv, toks[pos]);
      BinaryReadsInOrder(toks, start, pos, right.next, left, right.expr);
    }
  }

  /** A binary operator token reads as an operator. */
  lemma {:induction false} OperatorsReadAsOperators(lv: Level, t: Token)
    requires t.tokenType in Operators(lv)
    ensures ItemOf(t) == OperatorItem(t)
  {
  }

  /** An operand read from `toks[start..pos]`, the operator `toks[pos]`, an operand read from the rest. */
  lemma {:induction false} BinaryReadsInOrder(toks: seq<Token>, start: nat, pos: nat, next: nat, left: Expr, right: Expr)
    requires start <= pos < next <= |toks| && ItemOf(toks[pos]) == OperatorItem(toks[pos])
    requires Reading(left) == Items(toks, start, pos) && Reading(right) == Items(toks, pos + 1, next)
    ensures Reading(Binary(left, toks[pos], right)) == Items(toks, start, next)
  {
    ItemsSplit(toks, start, pos, next);
    ItemsFirst(toks, pos, next);
  }

  lemma {:induction false} UnaryReads(toks: seq<Token>, pos: nat)
    requires WellFormed(toks) && pos < |toks|
    ensures var r := UnaryP(toks, pos); r.Parsed? ==> Reading(r.expr) == Items(toks, pos, r.next)
    decreases |toks| - pos, 1
  {
    if MatchesAny(toks, pos, [Bang, Minus]) {
      UnaryReads(toks, pos + 1);
      PrefixReadsInOrder(toks, pos, UnaryP(toks, pos + 1));
    } else {
      PrimaryReads(toks, pos);
    }
  }

  /** A prefix operator at `pos` before an operand that reads as the tokens after it. */
  lemma {:induction false} PrefixReadsInOrder(toks: seq<Token>, pos: nat, right: Parsed)
    requires pos < |toks| && toks[pos].tokenType in [Bang, Minus]
    requires right.Parsed? ==> pos + 1 <= right.next <= |toks| && Reading(right.expr) == Items(toks, pos + 1, right.next)
    ensures right.Parsed? ==> Reading(Unary(toks[pos], right.expr)) == Items(toks, pos, right.next)
  {
    if right.Parsed? {
      ItemsFirst(toks, pos, right.next);
    }
  }

  lemma {:induction false} PrimaryReads(toks: seq<Token>, pos: nat)
    requires WellFormed(toks) && pos < |toks|
    ensures var r := PrimaryP(toks, pos); r.Parsed? ==> Reading(r.expr) == Items(toks, pos, r.next)
    decreases |toks| - pos, 0
  {
    var t := toks[pos].tokenType;
    if t in {False, True, Nil, Number, String} {
      PrimaryLiteral(toks, pos);
      LiteralReads(toks, pos, PrimaryP(toks, pos));
    } else if t == LeftParen {
      GroupReads(toks, pos + 1);
      assert PrimaryP(toks, pos) == GroupP(toks, pos + 1);
      OpenReadsInOrder(toks, pos, GroupP(toks, pos + 1));
    } else {
      ExpectExpressionIff(toks, pos);
    }
  }

  /** A literal token reads as the literal `primary()` builds from it (`r`, as `PrimaryLiteral` gives it). */
  lemma {:induction false} LiteralReads(toks: seq<Token>, pos: nat, r: Parsed)
    requires pos + 1 <= |toks|
    requires var t := toks[pos].tokenType;
      && t in {False, True, Nil, Number, String}
      && (t == False ==> r == Parsed(Literal(BoolValue(false)), pos + 1))
      && (t == True ==> r == Parsed(Literal(BoolValue(true)), pos + 1))
      && (t == Nil ==> r == Parsed(Literal(NilValue), pos + 1))
      && (t in {Number, String} ==> r == Parsed(Literal(toks[pos].literal), pos + 1))
    ensures r.Parsed? && r.next == pos + 1 && Reading(r.expr) == Items(toks, pos, r.next)
  {
    ItemsFirst(toks, pos, pos + 1);
  }

  /** A '(' at `pos` before a group `g` that reads as the tokens after it. */
  lemma {:induction false} OpenReadsInOrder(toks: seq<Token>, pos: nat, g: Parsed)
    requires pos < |toks| && toks[pos].tokenType == LeftParen
    requires g.Parsed? ==> pos + 1 <= g.next <= |toks| && Reading(g.expr) == [OpenParen] + Items(toks, pos + 1, g.next)
    ensures g.Parsed? ==> Reading(g.expr) == Items(toks, pos, g.next)
  {
    if g.Parsed? {
      ItemsFirst(toks, pos, g.next);
    }
  }

  /** The parenthesised branch, entered just after the '(': the inner expression, then the ')'. */
  lemma {:induction false} GroupReads(toks: seq<Token>, pos: nat)
    requires WellFormed(toks) && pos < |toks|
    ensures var r := GroupP(toks, pos); r.Parsed? ==> Reading(r.expr) == [OpenParen] + Items(toks, pos, r.next)
    decreases |toks| - pos, 11
  {
    ExpressionReads(toks, pos);
    ClosedReadsInOrder(toks, pos, ExpressionP(toks, pos), GroupP(toks, pos));
  }

  /** A group `g` closing, with a ')' at `inner.next`, a tree read from `toks[pos..inner.next]`. */
  lemma {:induction false} ClosedReadsInOrder(toks: seq<Token>, pos: nat, inner: Parsed, g: Parsed)
    requires inner.Parsed? ==> pos <= inner.next < |toks| && Reading(inner.expr) == Items(toks, pos, inner.next)
    requires g.Parsed? ==> inner.Parsed? && toks[inner.next].tokenType == RightParen
                           && g == Parsed(Grouping(inner.expr), inner.next + 1)
    ensures g.Parsed? ==> Reading(g.expr) == [OpenParen] + Items(toks, pos, g.next)
  {
    if g.Parsed? {
      ItemsSplit(toks, pos, inner.next, inner.next + 1);
      assert Items(toks, inner.next, inner.next + 1) == [CloseParen];
    }
  }
}
