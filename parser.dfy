/**
 * The recursive-descent expression parser of pylox/parser/parser.py.
 *
 * The first half states what each grammar rule does to a cursor position in
 * a token list (`ExpressionP` … `PrimaryP`, `SyncFrom`) as functions.  The
 * second half is the `Parser` object: its `current` field is advanced in
 * place, the error callback is modelled by the `diagnostics` field, and each
 * method is proved to follow the corresponding function.
 *
 * Python exceptions are modelled as results: a rule either produces an
 * expression and the position after it, or fails with the token and message
 * handed to the error callback and the kind of exception that is raised.
 */
module Parsing {
  import opened Tokens
  import opened Wrappers
  import opened Ast

  /** What the parser needs of its tokens: a non-empty list whose last token is EOF, as `scan_tokens` produces. */
  predicate WellFormed(toks: seq<Token>) {
    |toks| > 0 && toks[|toks| - 1].tokenType == Eof
  }

  /** `is_at_end()` with the cursor at `pos`. */
  predicate AtEnd(toks: seq<Token>, pos: nat)
    requires pos < |toks|
  {
    toks[pos].tokenType == Eof
  }

  /** `check(t)` with the cursor at `pos`. */
  predicate CheckAt(toks: seq<Token>, pos: nat, t: TokenType)
    requires pos < |toks|
  {
    !AtEnd(toks, pos) && toks[pos].tokenType == t
  }

  /** The cursor after `advance()` from `pos`: one further, except at EOF, where it stays. */
  function Advanced(toks: seq<Token>, pos: nat): (next: nat)
    requires WellFormed(toks) && pos < |toks|
    ensures pos <= next < |toks|
    ensures next == pos <==> AtEnd(toks, pos)
  {
    if AtEnd(toks, pos) then pos else pos + 1
  }

  /** `previous()` with the cursor at `pos`; at 0 Python's index -1 selects the last token. */
  function PreviousAt(toks: seq<Token>, pos: nat): Token
    requires 0 < |toks| && pos < |toks|
  {
    if pos == 0 then toks[|toks| - 1] else toks[pos - 1]
  }

  /** Whether `match(*types)` succeeds with the cursor at `pos`. */
  predicate MatchesAny(toks: seq<Token>, pos: nat, types: seq<TokenType>)
    requires pos < |toks|
  {
    !AtEnd(toks, pos) && toks[pos].tokenType in types
  }

  /** A `ParseError` raised by `error`, or the `TypeError` of `raise None` in `primary`. */
  datatype Exception = ParseError | TypeError

  /**
   * The outcome of a grammar rule: the expression and the cursor after it,
   * or the token and message given to the error callback, the exception
   * raised and the cursor at that moment.
   */
  datatype Parsed =
    | Parsed(expr: Expr, next: nat)
    | Failed(token: Token, message: string, exception: Exception, at: nat)

  /** The outcome stays inside the token list, at or after `lo`; a failure names the token at its cursor. */
  predicate Within(toks: seq<Token>, lo: nat, r: Parsed) {
    match r
    case Parsed(_, next) => lo <= next < |toks|
    case Failed(token, _, _, at) => lo <= at < |toks| && token == toks[at]
  }

  /** The binary precedence levels, loosest first. */
  datatype Level = EqualityLevel | ComparisonLevel | TermLevel | FactorLevel

  /** The operator token types each level's `while self.match(...)` accepts. */
  function Operators(lv: Level): seq<TokenType> {
    match lv
    case EqualityLevel => [BangEqual, EqualEqual]
    case ComparisonLevel => [Greater, GreaterEqual, Less, LessEqual]
    case TermLevel => [Minus, Plus]
    case FactorLevel => [Slash, Star]
  }

  /** 4 for equality down to 1 for factor; unary and primary are 0. */
  function Rank(lv: Level): nat {
    match lv
    case EqualityLevel => 4
    case ComparisonLevel => 3
    case TermLevel => 2
    case FactorLevel => 1
  }

  /** The level whose rule parses the operands of `lv`, for every level but factor. */
  function Tighter(lv: Level): (t: Level)
    requires lv != FactorLevel
    ensures Rank(t) == Rank(lv) - 1
  {
    match lv
    case EqualityLevel => ComparisonLevel
    case ComparisonLevel => TermLevel
    case TermLevel => FactorLevel
  }

  /** `expression()` from cursor `pos`. */
  function ExpressionP(toks: seq<Token>, pos: nat): (r: Parsed)
    requires WellFormed(toks) && pos < |toks|
    ensures Within(toks, pos, r) && (r.Parsed? ==> pos < r.next)
    decreases |toks| - pos, 10
  {
    BinaryP(toks, pos, EqualityLevel)
  }

  /** `equality()`, `comparison()`, `term()` or `factor()` from cursor `pos`: an operand, then the loop. */
  function BinaryP(toks: seq<Token>, pos: nat, lv: Level): (r: Parsed)
    requires WellFormed(toks) && pos < |toks|
    ensures Within(toks, pos, r) && (r.Parsed? ==> pos < r.next)
    decreases |toks| - pos, 2 * Rank(lv) + 1
  {
    var left := OperandP(toks, pos, lv);
    if left.Failed? then left else BinaryLoop(toks, lv, left.expr, left.next)
  }

  /** The rule that parses the operands of level `lv`: the next tighter level, or `unary()` under factor. */
  function OperandP(toks: seq<Token>, pos: nat, lv: Level): (r: Parsed)
    requires WellFormed(toks) && pos < |toks|
    ensures Within(toks, pos, r) && (r.Parsed? ==> pos < r.next)
    decreases |toks| - pos, 2 * Rank(lv)
  {
    if lv == FactorLevel then UnaryP(toks, pos) else BinaryP(toks, pos, Tighter(lv))
  }

  /** The `while self.match(...)` loop of level `lv` with `expr` equal to `left` and the cursor at `pos`. */
  function BinaryLoop(toks: seq<Token>, lv: Level, left: Expr, pos: nat): (r: Parsed)
    requires WellFormed(toks) && pos < |toks|
    ensures Within(toks, pos, r)
    decreases |toks| - pos, 0
  {
    if MatchesAny(toks, pos, Operators(lv)) then
      var right := OperandP(toks, pos + 1, lv);
      if right.Failed? then right else BinaryLoop(toks, lv, Binary(left, toks[pos], right.expr), right.next)
    else Parsed(left, pos)
  }

  /** `BinaryP` is the first operand followed by the loop. */
  lemma {:induction false} BinaryStart(toks: seq<Token>, pos: nat, lv: Level)
    requires WellFormed(toks) && pos < |toks|
    ensures var left := OperandP(toks, pos, lv);
      BinaryP(toks, pos, lv) == if left.Failed? then left else BinaryLoop(toks, lv, left.expr, left.next)
    ensures OperandP(toks, pos, lv) == if lv == FactorLevel then UnaryP(toks, pos) else BinaryP(toks, pos, Tighter(lv))
  {
  }

  /** One turn of `BinaryLoop` once an operator of the level has matched. */
  lemma {:induction false} LoopStep(toks: seq<Token>, lv: Level, left: Expr, pos: nat)
    requires WellFormed(toks) && pos < |toks| && MatchesAny(toks, pos, Operators(lv))
    ensures var right := OperandP(toks, pos + 1, lv);
      BinaryLoop(toks, lv, left, pos)
        == if right.Failed? then right else BinaryLoop(toks, lv, Binary(left, toks[pos], right.expr), right.next)
  {
  }

  /** `unary()` from cursor `pos`. */
  function UnaryP(toks: seq<Token>, pos: nat): (r: Parsed)
    requires WellFormed(toks) && pos < |toks|
    ensures Within(toks, pos, r) && (r.Parsed? ==> pos < r.next)
    decreases |toks| - pos, 1
  {
    if MatchesAny(toks, pos, [Bang, Minus]) then
      var right := UnaryP(toks, pos + 1);
      if right.Failed? then right else Parsed(Unary(toks[pos], right.expr), right.next)
    else PrimaryP(toks, pos)
  }

  /** The messages `primary()` reports. */
  const ExpectExpression: string := "Expect expression."
  const ExpectRightParen: string := "Expect ')' after expression"

  /** `primary()` from cursor `pos`. */
  function PrimaryP(toks: seq<Token>, pos: nat): (r: Parsed)
    requires WellFormed(toks) && pos < |toks|
    ensures Within(toks, pos, r) && (r.Parsed? ==> pos < r.next)
    decreases |toks| - pos, 0
  {
    if MatchesAny(toks, pos, [False]) then Parsed(Literal(BoolValue(false)), pos + 1)
    else if MatchesAny(toks, pos, [True]) then Parsed(Literal(BoolValue(true)), pos + 1)
    else if MatchesAny(toks, pos, [Nil]) then Parsed(Literal(NilValue), pos + 1)
    else if MatchesAny(toks, pos, [Number, String]) then Parsed(Literal(toks[pos].literal), pos + 1)
    else if MatchesAny(toks, pos, [LeftParen]) then GroupP(toks, pos + 1)
    else Failed(toks[pos], ExpectExpression, TypeError, pos)
  }

  /** The `( expression )` branch of `primary()`, with the cursor just after the '('. */
  function GroupP(toks: seq<Token>, pos: nat): (r: Parsed)
    requires WellFormed(toks) && pos < |toks|
    ensures Within(toks, pos, r) && (r.Parsed? ==> pos < r.next)
    decreases |toks| - pos, 11
  {
    var inner := ExpressionP(toks, pos);
    if inner.Failed? then inner
    else if CheckAt(toks, inner.next, RightParen) then Parsed(Grouping(inner.expr), inner.next + 1)
    else Failed(toks[inner.next], ExpectRightParen, ParseError, inner.next)
  }

  /** What `parse()` gives its caller: an expression, `None` after a `ParseError`, or the escaping `TypeError`. */
  datatype ParseOutcome = ParsedExpression(expr: Expr) | NoExpression | Crashed

  /** One call of the parser's error callback. */
  datatype Diagnostic = Diagnostic(token: Token, message: string)

  /** `parse()`'s `try`/`except Parser.ParseError`, applied to the outcome of `expression()`. */
  function Outcome(r: Parsed): (o: ParseOutcome)
    ensures o.ParsedExpression? <==> r.Parsed?
    ensures o.NoExpression? <==> r.Failed? && r.exception == ParseError
    ensures o.ParsedExpression? ==> o.expr == r.expr
  {
    match r
    case Parsed(e, _) => ParsedExpression(e)
    case Failed(_, _, ParseError, _) => NoExpression
    case Failed(_, _, TypeError, _) => Crashed
  }

  /** The error callback calls a rule makes: one for a failure, none otherwise. */
  function Reported(r: Parsed): seq<Diagnostic> {
    if r.Failed? then [Diagnostic(r.token, r.message)] else []
  }

  /** The keywords `synchronize()` stops in front of. */
  const StatementStarts: set<TokenType> := {Class, Fun, Var, For, If, While, Print, Return}

  /** Where the loop of `synchronize()` stops: at EOF, right after ';', or before a statement keyword. */
  predicate Boundary(toks: seq<Token>, p: nat)
    requires 0 < |toks| && p < |toks|
  {
    AtEnd(toks, p) || PreviousAt(toks, p).tokenType == Semicolon || toks[p].tokenType in StatementStarts
  }

  /** The `while not self.is_at_end()` loop of `synchronize()` from cursor `p`: the first boundary at or after `p`. */
  function SyncLoop(toks: seq<Token>, p: nat): (q: nat)
    requires WellFormed(toks) && p < |toks|
    ensures p <= q < |toks| && Boundary(toks, q)
    ensures forall k :: p <= k < q ==> !Boundary(toks, k)
    decreases |toks| - p
  {
    if Boundary(toks, p) then p else SyncLoop(toks, p + 1)
  }

  /** The cursor after `synchronize()` from `pos`: one `advance()`, then the loop. */
  function SyncFrom(toks: seq<Token>, pos: nat): (q: nat)
    requires WellFormed(toks) && pos < |toks|
    ensures Advanced(toks, pos) <= q < |toks| && Boundary(toks, q)
    ensures forall k :: Advanced(toks, pos) <= k < q ==> !Boundary(toks, k)
  {
    SyncLoop(toks, Advanced(toks, pos))
  }

  /** The `Parser` object: the token list, the cursor and the errors reported so far. */
  class Parser {
    const tokens: seq<Token>
    var current: nat
    var diagnostics: seq<Diagnostic>

    ghost predicate Valid()
      reads this
    {
      WellFormed(tokens) && current < |tokens|
    }

    /**
     * After a rule returned `r` with `before` the diagnostics at its start: the
     * cursor is where `r` says, and exactly the callback call of a failure was added.
     */
    ghost predicate Settled(r: Parsed, before: seq<Diagnostic>)
      reads this
    {
      match r
      case Parsed(_, next) => current == next && diagnostics == before
      case Failed(token, message, _, at) => current == at && diagnostics == before + [Diagnostic(token, message)]
    }

    constructor (tokens: seq<Token>)
      requires WellFormed(tokens)
      ensures Valid() && this.tokens == tokens && current == 0 && diagnostics == []
    {
      this.tokens := tokens;
      current := 0;
      diagnostics := [];
    }

    function Peek(): Token
      requires Valid()
      reads this
    {
      tokens[current]
    }

    function Previous(): Token
      requires Valid()
      reads this
    {
      PreviousAt(tokens, current)
    }

    predicate IsAtEnd()
      requires Valid()
      reads this
      ensures IsAtEnd() <==> AtEnd(tokens, current)
    {
      Peek().tokenType == Eof
    }

    predicate Check(t: TokenType)
      requires Valid()
      reads this
      ensures Check(t) <==> CheckAt(tokens, current, t)
    {
      if IsAtEnd() then false else Peek().tokenType == t
    }

    method Advance() returns (t: Token)
      requires Valid()
      modifies this`current
      ensures Valid() && current == Advanced(tokens, old(current)) && t == PreviousAt(tokens, current)
    {
      if !IsAtEnd() {
        current := current + 1;
      }
      t := Previous();
    }

    method Match(types: seq<TokenType>) returns (matched: bool)
      requires Valid()
      modifies this`current
      ensures Valid() && matched == MatchesAny(tokens, old(current), types)
      ensures current == old(current) + (if matched then 1 else 0)
    {
      for i := 0 to |types|
        invariant current == old(current)
        invariant !MatchesAny(tokens, current, types[..i])
      {
        if Check(types[i]) {
          var _ := Advance();
          return true;
        }
      }
      assert types[..|types|] == types;
      return false;
    }

    /** `error(token, message)`: one callback call, and the `ParseError` to raise. */
    method Error(token: Token, message: string) returns (e: Exception)
      modifies this`diagnostics
      ensures diagnostics == old(diagnostics) + [Diagnostic(token, message)] && e == ParseError
    {
      diagnostics := diagnostics + [Diagnostic(token, message)];
      e := ParseError;
    }

    /** `consume(t, message)`: the current token if it has type `t`, otherwise `None` for the raised `ParseError`. */
    method Consume(t: TokenType, message: string) returns (r: Option<Token>)
      requires Valid()
      modifies this`current, this`diagnostics
      ensures Valid() && (r.Some? <==> CheckAt(tokens, old(current), t))
      ensures r.Some? ==> r.value == tokens[old(current)] && current == old(current) + 1 && diagnostics == old(diagnostics)
      ensures r.None? ==> current == old(current) && diagnostics == old(diagnostics) + [Diagnostic(tokens[current], message)]
    {
      if Check(t) {
        var token := Advance();
        return Some(token);
      }
      var _ := Error(Peek(), message);
      return None;
    }

    method Expression() returns (r: Parsed)
      requires Valid()
      modifies this`current, this`diagnostics
      ensures Valid() && r == ExpressionP(tokens, old(current)) && Settled(r, old(diagnostics))
      decreases |tokens| - current, 10
    {
      r := Equality();
    }

    method Equality() returns (r: Parsed)
      requires Valid()
      modifies this`current, this`diagnostics
      ensures Valid() && r == BinaryP(tokens, old(current), EqualityLevel) && Settled(r, old(diagnostics))
      decreases |tokens| - current, 9
    {
      BinaryStart(tokens, current, EqualityLevel);
      var left := Comparison();
      if left.Failed? {
        return left;
      }
      r := LevelLoop(EqualityLevel, left.expr);
    }

    method Comparison() returns (r: Parsed)
      requires Valid()
      modifies this`current, this`diagnostics
      ensures Valid() && r == BinaryP(tokens, old(current), ComparisonLevel) && Settled(r, old(diagnostics))
      decreases |tokens| - current, 7
    {
      BinaryStart(tokens, current, ComparisonLevel);
      var left := Term();
      if left.Failed? {
        return left;
      }
      r := LevelLoop(ComparisonLevel, left.expr);
    }

    method Term() returns (r: Parsed)
      requires Valid()
      modifies this`current, this`diagnostics
      ensures Valid() && r == BinaryP(tokens, old(current), TermLevel) && Settled(r, old(diagnostics))
      decreases |tokens| - current, 5
    {
      BinaryStart(tokens, current, TermLevel);
      var left := Factor();
      if left.Failed? {
        return left;
      }
      r := LevelLoop(TermLevel, left.expr);
    }

    method Factor() returns (r: Parsed)
      requires Valid()
      modifies this`current, this`diagnostics
      ensures Valid() && r == BinaryP(tokens, old(current), FactorLevel) && Settled(r, old(diagnostics))
      decreases |tokens| - current, 3
    {
      BinaryStart(tokens, current, FactorLevel);
      var left := Unary();
      if left.Failed? {
        return left;
      }
      r := LevelLoop(FactorLevel, left.expr);
    }

    /**
     * The `while self.match(...)` loop shared by `equality`, `comparison`,
     * `term` and `factor`: while an operator of level `lv` follows, parse the
     * next operand and fold it into the tree built so far, starting from `left`.
     */
    method LevelLoop(lv: Level, left: Expr) returns (r: Parsed)
      requires Valid()
      modifies this`current, this`diagnostics
      ensures Valid() && r == BinaryLoop(tokens, lv, left, old(current)) && Settled(r, old(diagnostics))
      decreases |tokens| - current, 0
    {
      var expr := left;
      ghost var goal := BinaryLoop(tokens, lv, left, current);
      ghost var loopPos: nat := current;
      var matched := Match(Operators(lv));
      while matched
        invariant Valid() && diagnostics == old(diagnostics) && old(current) <= loopPos < |tokens|
        invariant matched == MatchesAny(tokens, loopPos, Operators(lv))
        invariant current == loopPos + (if matched then 1 else 0)
        invariant goal == BinaryLoop(tokens, lv, expr, loopPos)
        decreases |tokens| - current
      {
        var turn := LevelTurn(lv, expr, loopPos);
        if turn.Failed? {
          return turn;
        }
        expr := turn.expr;
        loopPos := current;
        matched := Match(Operators(lv));
      }
      return Parsed(expr, current);
    }

    /**
     * One turn of that loop, once `match` has consumed the operator at
     * `loopPos`: the operator is `previous()`, then the operand follows and
     * `Binary(expr, operator, right)` is the tree so far.
     */
    method LevelTurn(lv: Level, expr: Expr, ghost loopPos: nat) returns (r: Parsed)
      requires Valid() && current == loopPos + 1 && MatchesAny(tokens, loopPos, Operators(lv))
      modifies this`current, this`diagnostics
      ensures Valid() && Settled(r, old(diagnostics)) && (r.Parsed? ==> loopPos + 1 < r.next)
      ensures BinaryLoop(tokens, lv, expr, loopPos) == if r.Failed? then r else BinaryLoop(tokens, lv, r.expr, r.next)
      decreases |tokens| - current, 2 * Rank(lv) + 1
    {
      LoopStep(tokens, lv, expr, loopPos);
      var operator := Previous();
      var right := Operand(lv);
      if right.Failed? {
        return right;
      }
      return Parsed(Binary(expr, operator, right.expr), current);
    }

    /** The operand rule of level `lv`: `comparison`, `term`, `factor` or `unary`. */
    method Operand(lv: Level) returns (r: Parsed)
      requires Valid()
      modifies this`current, this`diagnostics
      ensures Valid() && r == OperandP(tokens, old(current), lv) && Settled(r, old(diagnostics))
      decreases |tokens| - current, 2 * Rank(lv)
    {
      match lv
      case EqualityLevel => r := Comparison();
      case ComparisonLevel => r := Term();
      case TermLevel => r := Factor();
      case FactorLevel => r := Unary();
    }

    method Unary() returns (r: Parsed)
      requires Valid()
      modifies this`current, this`diagnostics
      ensures Valid() && r == UnaryP(tokens, old(current)) && Settled(r, old(diagnostics))
      decreases |tokens| - current, 1
    {
      var matched := Match([Bang, Minus]);
      if matched {
        var operator := Previous();
        var right := Unary();
        if right.Failed? {
          return right;
        }
        return Parsed(Ast.Unary(operator, right.expr), current);
      }
      r := Primary();
    }

    method Primary() returns (r: Parsed)
      requires Valid()
      modifies this`current, this`diagnostics
      ensures Valid() && r == PrimaryP(tokens, old(current)) && Settled(r, old(diagnostics))
      decreases |tokens| - current, 0
    {
      var matched := Match([False]);
      if matched {
        return Parsed(Literal(BoolValue(false)), current);
      }
      matched := Match([True]);
      if matched {
        return Parsed(Literal(BoolValue(true)), current);
      }
      matched := Match([Nil]);
      if matched {
        return Parsed(Literal(NilValue), current);
      }
      matched := Match([Number, String]);
      if matched {
        return Parsed(Literal(Previous().literal), current);
      }
      matched := Match([LeftParen]);
      if matched {
        r := Group();
        return;
      }
      diagnostics := diagnostics + [Diagnostic(Peek(), ExpectExpression)];
      return Failed(Peek(), ExpectExpression, TypeError, current);
    }

    /** The `( expression )` branch of `primary()`, after the '(' has been matched. */
    method Group() returns (r: Parsed)
      requires Valid()
      modifies this`current, this`diagnostics
      ensures Valid() && r == GroupP(tokens, old(current)) && Settled(r, old(diagnostics))
      decreases |tokens| - current, 11
    {
      var inner := Expression();
      if inner.Failed? {
        return inner;
      }
      var closing := Consume(RightParen, ExpectRightParen);
      if closing.None? {
        return Failed(Peek(), ExpectRightParen, ParseError, current);
      }
      return Parsed(Grouping(inner.expr), current);
    }

    /** `parse()`: `expression()`, with a `ParseError` turned into `None`. */
    method Parse() returns (outcome: ParseOutcome)
      requires Valid()
      modifies this`current, this`diagnostics
      ensures Valid()
      ensures var r := ExpressionP(tokens, old(current));
        outcome == Outcome(r) && diagnostics == old(diagnostics) + Reported(r)
    {
      var r := Expression();
      match r
      case Parsed(e, _) =>
        outcome := ParsedExpression(e);
      case Failed(_, _, exception, _) =>
        outcome := if exception == ParseError then NoExpression else Crashed;
    }

    /** `synchronize()`: skip tokens up to the next statement boundary. */
    method Synchronize()
      requires Valid()
      modifies this`current
      ensures Valid() && current == SyncFrom(tokens, old(current))
    {
      var _ := Advance();
      while !IsAtEnd()
        invariant Valid() && SyncLoop(tokens, current) == SyncFrom(tokens, old(current))
        decreases |tokens| - current
      {
        if Previous().tokenType == Semicolon {
          return;
        }
        if Peek().tokenType in StatementStarts {
          return;
        }
        var _ := Advance();
      }
    }
  }

  /** How `pylox/lox.py` uses the parser: a fresh `Parser` over the scanned tokens, then `parse()`. */
  method ParseTokens(tokens: seq<Token>) returns (outcome: ParseOutcome, diagnostics: seq<Diagnostic>)
    requires WellFormed(tokens)
    ensures outcome == Outcome(ExpressionP(tokens, 0))
    ensures diagnostics == Reported(ExpressionP(tokens, 0))
  {
    var parser := new Parser(tokens);
    outcome := parser.Parse();
    diagnostics := parser.diagnostics;
  }
}
