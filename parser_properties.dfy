/**
 * Properties of the parser of pylox/parser/parser.py, stated about the
 * functions `ExpressionP` … `PrimaryP` that the `Parser` methods are proved
 * to follow.
 */
module ParsingProperties {
  import opened Tokens
  import opened Ast
  import opened Parsing

  /** The binding level of a binary operator token type: 4 for `==`/`!=` down to 1 for `*`/`/`, otherwise 0. */
  function LevelOf(t: TokenType): nat {
    if t in {BangEqual, EqualEqual} then 4
    else if t in {Greater, GreaterEqual, Less, LessEqual} then 3
    else if t in {Minus, Plus} then 2
    else if t in {Slash, Star} then 1
    else 0
  }

  /**
   * `e` is a tree the precedence levels allow where operators up to level `k`
   * may appear at the top: a binary node's left operand may use its own level
   * again (left association), its right operand only tighter levels, a unary
   * operand is unary or primary, and parentheses reopen every level.
   */
  predicate Layered(e: Expr, k: nat) {
    match e
    case Binary(left, operator, right) =>
      var j := LevelOf(operator.tokenType);
      1 <= j <= k && Layered(left, j) && Layered(right, j - 1)
    case Unary(operator, right) => operator.tokenType in {Bang, Minus} && Layered(right, 0)
    case Grouping(inner) => Layered(inner, 4)
    case Literal(_) => true
    case _ => false
  }

  lemma {:induction false} OperatorsHaveTheirLevel(lv: Level, t: TokenType)
    requires t in Operators(lv)
    ensures LevelOf(t) == Rank(lv)
  {
  }

  /** What `expression()` builds respects the precedence levels. */
  lemma {:induction false} ExpressionLayered(toks: seq<Token>, pos: nat)
    requires WellFormed(toks) && pos < |toks|
    ensures var r := ExpressionP(toks, pos); r.Parsed? ==> Layered(r.expr, 4)
    decreases |toks| - pos, 10
  {
    BinaryLayered(toks, pos, EqualityLevel);
  }

  /** What the rule of level `lv` builds uses no operator looser than `lv` at its top. */
  lemma {:induction false} BinaryLayered(toks: seq<Token>, pos: nat, lv: Level)
    requires WellFormed(toks) && pos < |toks|
    ensures var r := BinaryP(toks, pos, lv); r.Parsed? ==> Layered(r.expr, Rank(lv))
    decreases |toks| - pos, 2 * Rank(lv) + 1
  {
    var left := OperandP(toks, pos, lv);
    OperandLayered(toks, pos, lv);
    if left.Parsed? {
      LoopLayered(toks, lv, left.expr, left.next);
    }
  }

  /** The operands of level `lv` use only tighter levels. */
  lemma {:induction false} OperandLayered(toks: seq<Token>, pos: nat, lv: Level)
    requires WellFormed(toks) && pos < |toks|
    ensures var r := OperandP(toks, pos, lv); r.Parsed? ==> Layered(r.expr, Rank(lv) - 1)
    decreases |toks| - pos, 2 * Rank(lv)
  {
    if lv == FactorLevel {
      UnaryLayered(toks, pos);
    } else {
      BinaryLayered(toks, pos, Tighter(lv));
    }
  }

  /** The loop of level `lv` keeps the tree layered: each new node puts the tree so far on the left. */
  lemma {:induction false} LoopLayered(toks: seq<Token>, lv: Level, left: Expr, pos: nat)
    requires WellFormed(toks) && pos < |toks|
    requires Layered(left, Rank(lv))
    ensures var r := BinaryLoop(toks, lv, left, pos); r.Parsed? ==> Layered(r.expr, Rank(lv))
    decreases |toks| - pos, 0
  {
    if MatchesAny(toks, pos, Operators(lv)) {
      var right := OperandP(toks, pos + 1, lv);
      OperandLayered(toks, pos + 1, lv);
      if right.Parsed? {
        OperatorsHaveTheirLevel(lv, toks[pos].tokenType);
        LoopLayered(toks, lv, Binary(left, toks[pos], right.expr), right.next);
      }
    }
  }

  /** `unary()` builds a prefix chain over a primary. */
  lemma {:induction false} UnaryLayered(toks: seq<Token>, pos: nat)
    requires WellFormed(toks) && pos < |toks|
    ensures var r := UnaryP(toks, pos); r.Parsed? ==> Layered(r.expr, 0)
    decreases |toks| - pos, 1
  {
    if MatchesAny(toks, pos, [Bang, Minus]) {
      UnaryLayered(toks, pos + 1);
    } else {
      PrimaryLayered(toks, pos);
    }
  }

  lemma {:induction false} PrimaryLayered(toks: seq<Token>, pos: nat)
    requires WellFormed(toks) && pos < |toks|
    ensures var r := PrimaryP(toks, pos); r.Parsed? ==> Layered(r.expr, 0)
    decreases |toks| - pos, 0
  {
    if CheckAt(toks, pos, LeftParen) {
      GroupLayered(toks, pos + 1);
    }
  }

  lemma {:induction false} GroupLayered(toks: seq<Token>, pos: nat)
    requires WellFormed(toks) && pos < |toks|
    ensures var r := GroupP(toks, pos); r.Parsed? ==> Layered(r.expr, 0)
    decreases |toks| - pos, 11
  {
    ExpressionLayered(toks, pos);
  }

  /** A layered tree may be used wherever looser operators are allowed. */
  lemma {:induction false} LayeredWeakens(e: Expr, j: nat, k: nat)
    requires j <= k && Layered(e, j)
    ensures Layered(e, k)
  {
  }

  /**
   * Left association: a tree layered at level `k` never has a node of level
   * `k` directly in the right operand of another node of level `k`.
   */
  lemma {:induction false} NoSameLevelOnTheRight(e: Expr, k: nat)
    requires Layered(e, k) && e.Binary? && LevelOf(e.operator.tokenType) == k
    ensures !(e.right.Binary? && LevelOf(e.right.operator.tokenType) == k)
  {
  }

  /**
   * Precedence: in a parsed tree, a binary node directly under the left or
   * right of another one never binds more loosely than it.
   */
  lemma {:induction false} TighterBelow(e: Expr, k: nat)
    requires Layered(e, k) && e.Binary?
    ensures e.left.Binary? ==> LevelOf(e.left.operator.tokenType) <= LevelOf(e.operator.tokenType)
    ensures e.right.Binary? ==> LevelOf(e.right.operator.tokenType) < LevelOf(e.operator.tokenType)
  {
    var j := LevelOf(e.operator.tokenType);
    assert Layered(e.left, j) && Layered(e.right, j - 1);
  }

  /** `unary()` on `!`/`-` is right-recursive: the operator applies to the whole following unary. */
  lemma {:induction false} UnaryPrefix(toks: seq<Token>, pos: nat)
    requires WellFormed(toks) && pos < |toks| && toks[pos].tokenType in {Bang, Minus}
    ensures var r, right := UnaryP(toks, pos), UnaryP(toks, pos + 1);
      && (right.Parsed? ==> r == Parsed(Unary(toks[pos], right.expr), right.next))
      && (right.Failed? ==> r == right)
  {
  }

  /** `false`, `true`, `nil`, numbers and strings are literals of one token. */
  lemma {:induction false} PrimaryLiteral(toks: seq<Token>, pos: nat)
    requires WellFormed(toks) && pos < |toks|
    ensures toks[pos].tokenType == False ==> PrimaryP(toks, pos) == Parsed(Literal(BoolValue(false)), pos + 1)
    ensures toks[pos].tokenType == True ==> PrimaryP(toks, pos) == Parsed(Literal(BoolValue(true)), pos + 1)
    ensures toks[pos].tokenType == Nil ==> PrimaryP(toks, pos) == Parsed(Literal(NilValue), pos + 1)
    ensures toks[pos].tokenType in {Number, String} ==> PrimaryP(toks, pos) == Parsed(Literal(toks[pos].literal), pos + 1)
  {
    var t := toks[pos].tokenType;
    if t == False {
      assert MatchesAny(toks, pos, [False]);
    } else if t == True {
      assert MatchesAny(toks, pos, [True]);
    } else if t == Nil {
      assert MatchesAny(toks, pos, [Nil]);
    } else if t in {Number, String} {
      assert MatchesAny(toks, pos, [Number, String]);
    }
  }

  /** `( e )` is a grouping that ends after the ')'; without the ')', "Expect ')' after expression" at the token found instead. */
  lemma {:induction false} PrimaryParenthesized(toks: seq<Token>, pos: nat)
    requires WellFormed(toks) && pos < |toks| && toks[pos].tokenType == LeftParen
    ensures var r, inner := PrimaryP(toks, pos), ExpressionP(toks, pos + 1);
      && (inner.Failed? ==> r == inner)
      && (inner.Parsed? && CheckAt(toks, inner.next, RightParen) ==> r == Parsed(Grouping(inner.expr), inner.next + 1))
      && (inner.Parsed? && !CheckAt(toks, inner.next, RightParen) ==>
            r == Failed(toks[inner.next], ExpectRightParen, ParseError, inner.next))
  {
  }

  /**
   * `primary()` reports "Expect expression." at its own token, raising the
   * `TypeError` of `raise None`, exactly when that token starts no primary.
   */
  lemma {:induction false} ExpectExpressionIff(toks: seq<Token>, pos: nat)
    requires WellFormed(toks) && pos < |toks|
    ensures PrimaryP(toks, pos) == Failed(toks[pos], ExpectExpression, TypeError, pos)
        <==> toks[pos].tokenType !in {False, True, Nil, Number, String, LeftParen}
  {
    var t := toks[pos].tokenType;
    if t == LeftParen {
      var r := GroupP(toks, pos + 1);
      assert PrimaryP(toks, pos) == r;
      assert r.Failed? ==> r.at > pos;
    } else if t in {False, True, Nil, Number, String} {
      PrimaryLiteral(toks, pos);
    } else {
      assert !MatchesAny(toks, pos, [False]) && !MatchesAny(toks, pos, [True]) && !MatchesAny(toks, pos, [Nil]);
      assert !MatchesAny(toks, pos, [Number, String]) && !MatchesAny(toks, pos, [LeftParen]);
    }
  }

  /** A failure is `consume`'s `ParseError` for a missing ')' or `primary`'s `TypeError`. */
  predicate KnownFailure(r: Parsed) {
    r.Failed? ==>
      || (r.exception == ParseError && r.message == ExpectRightParen)
      || (r.exception == TypeError && r.message == ExpectExpression)
  }

  /** A failing rule's error is a `ParseError` from `consume` or the `TypeError` from `primary`, with their messages. */
  lemma {:induction false} FailureMessages(toks: seq<Token>, pos: nat)
    requires WellFormed(toks) && pos < |toks|
    ensures var r := ExpressionP(toks, pos);
      KnownFailure(r)
    decreases |toks| - pos, 10
  {
    BinaryFailure(toks, pos, EqualityLevel);
  }

  lemma {:induction false} BinaryFailure(toks: seq<Token>, pos: nat, lv: Level)
    requires WellFormed(toks) && pos < |toks|
    ensures var r := BinaryP(toks, pos, lv);
      KnownFailure(r)
    decreases |toks| - pos, 2 * Rank(lv) + 1
  {
    var left := OperandP(toks, pos, lv);
    OperandFailure(toks, pos, lv);
    if left.Parsed? {
      LoopFailure(toks, lv, left.expr, left.next);
    }
  }

  lemma {:induction false} OperandFailure(toks: seq<Token>, pos: nat, lv: Level)
    requires WellFormed(toks) && pos < |toks|
    ensures var r := OperandP(toks, pos, lv);
      KnownFailure(r)
    decreases |toks| - pos, 2 * Rank(lv)
  {
    if lv == FactorLevel {
      UnaryFailure(toks, pos);
    } else {
      BinaryFailure(toks, pos, Tighter(lv));
    }
  }

  lemma {:induction false} LoopFailure(toks: seq<Token>, lv: Level, left: Expr, pos: nat)
    requires WellFormed(toks) && pos < |toks|
    ensures var r := BinaryLoop(toks, lv, left, pos);
      KnownFailure(r)
    decreases |toks| - pos, 0
  {
    if MatchesAny(toks, pos, Operators(lv)) {
      var right := OperandP(toks, pos + 1, lv);
      OperandFailure(toks, pos + 1, lv);
      if right.Parsed? {
        LoopFailure(toks, lv, Binary(left, toks[pos], right.expr), right.next);
      }
    }
  }

  lemma {:induction false} UnaryFailure(toks: seq<Token>, pos: nat)
    requires WellFormed(toks) && pos < |toks|
    ensures var r := UnaryP(toks, pos);
      KnownFailure(r)
    decreases |toks| - pos, 1
  {
    if MatchesAny(toks, pos, [Bang, Minus]) {
      UnaryFailure(toks, pos + 1);
    } else if CheckAt(toks, pos, LeftParen) {
      assert UnaryP(toks, pos) == PrimaryP(toks, pos) == GroupP(toks, pos + 1);
      FailureMessages(toks, pos + 1);
    }
  }

  /** A parse that returns no expression reported exactly one error, and a parse that succeeds reported none. */
  lemma {:induction false} ParseReports(toks: seq<Token>)
    requires WellFormed(toks)
    ensures var r := ExpressionP(toks, 0);
      && (Outcome(r).ParsedExpression? <==> Reported(r) == [])
      && (Outcome(r).NoExpression? ==> Reported(r) == [Diagnostic(r.token, ExpectRightParen)])
      && (Outcome(r).Crashed? ==> Reported(r) == [Diagnostic(r.token, ExpectExpression)])
  {
    FailureMessages(toks, 0);
  }

  function NumberToken(n: real, line: nat): Token {
    Token(Number, "n", NumValue(n), line)
  }

  function MinusToken(line: nat): Token {
    Token(Minus, "-", NilValue, line)
  }

  /** A number followed by something other than `*` or `/` is a complete factor. */
  lemma {:induction false} NumberFactor(toks: seq<Token>, pos: nat)
    requires WellFormed(toks) && pos + 1 < |toks| && toks[pos].tokenType == Number
    requires toks[pos + 1].tokenType !in {Slash, Star}
    ensures BinaryP(toks, pos, FactorLevel) == Parsed(Literal(toks[pos].literal), pos + 1)
  {
    assert UnaryP(toks, pos) == Parsed(Literal(toks[pos].literal), pos + 1);
    assert BinaryLoop(toks, FactorLevel, Literal(toks[pos].literal), pos + 1) == Parsed(Literal(toks[pos].literal), pos + 1);
  }

  /** A term that stops in front of EOF is not extended by the comparison or equality loops. */
  lemma {:induction false} TermIsExpressionAtEof(toks: seq<Token>, pos: nat)
    requires WellFormed(toks) && pos < |toks|
    requires var r := BinaryP(toks, pos, TermLevel); r.Parsed? && r.next == |toks| - 1
    ensures ExpressionP(toks, pos) == BinaryP(toks, pos, TermLevel)
  {
    var r := BinaryP(toks, pos, TermLevel);
    BinaryStart(toks, pos, ComparisonLevel);
    assert BinaryLoop(toks, ComparisonLevel, r.expr, r.next) == r;
    BinaryStart(toks, pos, EqualityLevel);
    assert BinaryLoop(toks, EqualityLevel, r.expr, r.next) == r;
  }

  /** `1 - 2 - 3` parses as `(1 - 2) - 3`. */
  lemma {:induction false} MinusIsLeftAssociative(a: real, b: real, c: real)
    ensures var toks := [NumberToken(a, 1), MinusToken(1), NumberToken(b, 1), MinusToken(1), NumberToken(c, 1), Token(Eof, "", NilValue, 1)];
      ExpressionP(toks, 0)
        == Parsed(Binary(Binary(Literal(NumValue(a)), MinusToken(1), Literal(NumValue(b))), MinusToken(1), Literal(NumValue(c))), 5)
  {
    var toks := [NumberToken(a, 1), MinusToken(1), NumberToken(b, 1), MinusToken(1), NumberToken(c, 1), Token(Eof, "", NilValue, 1)];
    var la, lb, lc := Literal(NumValue(a)), Literal(NumValue(b)), Literal(NumValue(c));
    NumberFactor(toks, 0);
    NumberFactor(toks, 2);
    NumberFactor(toks, 4);
    BinaryStart(toks, 0, TermLevel);
    LoopStep(toks, TermLevel, la, 1);
    BinaryStart(toks, 2, FactorLevel);
    LoopStep(toks, TermLevel, Binary(la, MinusToken(1), lb), 3);
    assert BinaryLoop(toks, TermLevel, Binary(Binary(la, MinusToken(1), lb), MinusToken(1), lc), 5)
      == Parsed(Binary(Binary(la, MinusToken(1), lb), MinusToken(1), lc), 5);
    TermIsExpressionAtEof(toks, 0);
  }

  /** `!!true` parses as `!(!true)`. */
  lemma {:induction false} DoubleBang()
    ensures var bang := Token(Bang, "!", NilValue, 1);
      var toks := [bang, bang, Token(True, "true", NilValue, 1), Token(Eof, "", NilValue, 1)];
      UnaryP(toks, 0) == Parsed(Unary(bang, Unary(bang, Literal(BoolValue(true)))), 3)
  {
    var bang := Token(Bang, "!", NilValue, 1);
    var toks := [bang, bang, Token(True, "true", NilValue, 1), Token(Eof, "", NilValue, 1)];
    assert UnaryP(toks, 2) == Parsed(Literal(BoolValue(true)), 3);
    assert UnaryP(toks, 1) == Parsed(Unary(bang, Literal(BoolValue(true))), 3);
  }
}
