/**
 * The character scanner of pylox/scanner/scanner.py.
 *
 * The first half of the module states what one call of `scan_token` does
 * (`ScanStep`) and what the whole pass does (`ScanFrom`, `Tokenize`) as
 * functions of the source text, the cursor and the line counter.  The second
 * half is the `Scanner` object itself: its cursor fields are updated in
 * place, tokens are appended to a list, and the error callback is modelled by
 * the `errors` field, which records every `(line, message)` it was given.
 */
module Scanning {
  import opened Tokens
  import opened Wrappers

  /** One call of the scanner's error callback. */
  datatype LexError = LexError(line: nat, message: string)

  /** The reserved words and the token type each one stands for. */
  const Keywords: map<string, TokenType> := map[
    "and" := And, "class" := Class, "else" := Else, "false" := False,
    "for" := For, "fun" := Fun, "if" := If, "nil" := Nil,
    "or" := Or, "print" := Print, "return" := Return, "super" := Super,
    "this" := This, "true" := True, "var" := Var, "while" := While
  ]

  /** `keywords.get(text, IDENTIFIER)` */
  function KeywordType(text: string): TokenType {
    if text in Keywords then Keywords[text] else Identifier
  }

  predicate IsAlpha(c: char) {
    ('a' <= c <= 'z') || ('A' <= c <= 'Z') || c == '_'
  }

  predicate IsDigit(c: char) {
    '0' <= c <= '9'
  }

  predicate IsAlphanumeric(c: char) {
    IsAlpha(c) || IsDigit(c)
  }

  /** `peek()` with the cursor at `i`: the character there, or '\0' past the end. */
  function CharAt(src: string, i: nat): char {
    if i >= |src| then '\0' else src[i]
  }

  /** Whether `match(expected)` succeeds with the cursor at `i`. */
  predicate MatchAt(src: string, i: nat, expected: char) {
    i < |src| && src[i] == expected
  }

  /** The number of '\n' characters in `src[a..b]`. */
  function Newlines(src: string, a: nat, b: nat): nat
    requires a <= b <= |src|
    decreases b - a
  {
    if a == b then 0 else Newlines(src, a, b - 1) + (if src[b - 1] == '\n' then 1 else 0)
  }

  /** Where the alphanumeric run that continues an identifier at `i` ends. */
  function AlnumEnd(src: string, i: nat): (j: nat)
    requires i <= |src|
    ensures i <= j <= |src|
    ensures forall k :: i <= k < j ==> IsAlphanumeric(src[k])
    ensures !IsAlphanumeric(CharAt(src, j))
    decreases |src| - i
  {
    if IsAlphanumeric(CharAt(src, i)) then AlnumEnd(src, i + 1) else i
  }

  /** Where the run of digits starting at `i` ends. */
  function DigitsEnd(src: string, i: nat): (j: nat)
    requires i <= |src|
    ensures i <= j <= |src|
    ensures forall k :: i <= k < j ==> IsDigit(src[k])
    ensures !IsDigit(CharAt(src, j))
    decreases |src| - i
  {
    if IsDigit(CharAt(src, i)) then DigitsEnd(src, i + 1) else i
  }

  /**
   * Where a number whose first digit ends just before `i` ends: the rest of
   * the integer digits, then, only if a digit follows the '.', the '.' and
   * the fractional digits.
   */
  function NumberEnd(src: string, i: nat): (j: nat)
    requires i <= |src|
    ensures i <= j <= |src|
    ensures forall k :: i <= k < j ==> IsDigit(src[k]) || src[k] == '.'
  {
    var k := DigitsEnd(src, i);
    if CharAt(src, k) == '.' && IsDigit(CharAt(src, k + 1)) then DigitsEnd(src, k + 1) else k
  }

  /**
   * Where a run that starts at `i` and stops at the character `stop` ends: at
   * the next `stop` or at the end.  A `//` comment runs until '\n', the body
   * of a string literal until '"'.
   */
  function ScanUntil(src: string, i: nat, stop: char): (j: nat)
    requires i <= |src|
    ensures i <= j <= |src|
    ensures forall k :: i <= k < j ==> src[k] != stop
    ensures j == |src| || src[j] == stop
    decreases |src| - i
  {
    if CharAt(src, i) != stop && i < |src| then ScanUntil(src, i + 1, stop) else i
  }

  /** The value of a run of decimal digits. */
  function DigitsValue(s: string): nat {
    if s == [] then 0
    else DigitsValue(s[..|s| - 1]) * 10 + (if IsDigit(s[|s| - 1]) then s[|s| - 1] as int - '0' as int else 0)
  }

  function Pow10(n: nat): (p: nat)
    ensures p > 0
  {
    if n == 0 then 1 else 10 * Pow10(n - 1)
  }

  /** The index of the first '.' in `s` at or after `i`, or `|s|`. */
  function DotIndex(s: string, i: nat): (k: nat)
    requires i <= |s|
    ensures i <= k <= |s|
    decreases |s| - i
  {
    if i == |s| || s[i] == '.' then i else DotIndex(s, i + 1)
  }

  /**
   * `float(lexeme)` for a number lexeme, as the exact decimal value (the
   * rounding to the nearest double is not part of this model).
   */
  function DecimalValue(lexeme: string): real {
    var k := DotIndex(lexeme, 0);
    DigitsValue(lexeme[..k]) as real
      + if k < |lexeme| then DigitsValue(lexeme[k + 1..]) as real / Pow10(|lexeme| - k - 1) as real else 0.0
  }

  /** What one `scan_token` call does: the new cursor and line, the tokens it added and the errors it reported. */
  datatype Step = Step(next: nat, line: nat, emitted: seq<Token>, errors: seq<LexError>)

  /** `add_token(t, literal)` once the cursor has moved from `pos` to `next`. */
  function Emit(src: string, pos: nat, next: nat, line: nat, t: TokenType, literal: Value): Step
    requires pos <= next <= |src|
  {
    Step(next, line, [Token(t, src[pos..next], literal, line)], [])
  }

  /** A step that adds nothing and reports nothing. */
  function Skip(next: nat, line: nat): Step {
    Step(next, line, [], [])
  }

  /** The characters that are always a token of their own. */
  function SingleCharType(c: char): Option<TokenType> {
    match c
    case '(' => Some(LeftParen)
    case ')' => Some(RightParen)
    case '{' => Some(LeftBrace)
    case '}' => Some(RightBrace)
    case ',' => Some(Comma)
    case '.' => Some(Dot)
    case '-' => Some(Minus)
    case '+' => Some(Plus)
    case ';' => Some(Semicolon)
    case '*' => Some(Star)
    case _ => None
  }

  /** `!`, `=`, `<`, `>`: the token type with a following '=' and the one without. */
  function OperatorTypes(c: char): Option<(TokenType, TokenType)> {
    match c
    case '!' => Some((BangEqual, Bang))
    case '=' => Some((EqualEqual, Equal))
    case '<' => Some((LessEqual, Less))
    case '>' => Some((GreaterEqual, Greater))
    case _ => None
  }

  /** `!`, `=`, `<`, `>`: the two-character form exactly when '=' follows. */
  function OperatorStep(src: string, pos: nat, line: nat, long: TokenType, short: TokenType): (s: Step)
    requires pos < |src|
    ensures pos < s.next <= |src|
  {
    if MatchAt(src, pos + 1, '=') then Emit(src, pos, pos + 2, line, long, NilValue)
    else Emit(src, pos, pos + 1, line, short, NilValue)
  }

  /** '/': a comment up to the end of the line after a second '/', otherwise SLASH. */
  function SlashStep(src: string, pos: nat, line: nat): (s: Step)
    requires pos < |src|
    ensures pos < s.next <= |src|
  {
    if MatchAt(src, pos + 1, '/') then Skip(ScanUntil(src, pos + 2, '\n'), line)
    else Emit(src, pos, pos + 1, line, Slash, NilValue)
  }

  /** `string()` for the '"' at `pos`. */
  function StringStep(src: string, pos: nat, line: nat): (s: Step)
    requires pos < |src|
    ensures pos < s.next <= |src|
  {
    var j := ScanUntil(src, pos + 1, '"');
    var l := line + Newlines(src, pos + 1, j);
    if j == |src| then Step(j, l, [], [LexError(l, "Unterminated string.")])
    else Step(j + 1, l, [Token(String, src[pos..j + 1], StrValue(src[pos + 1..j]), l)], [])
  }

  /** `number()` for the digit at `pos`. */
  function NumberStep(src: string, pos: nat, line: nat): (s: Step)
    requires pos < |src|
    ensures pos < s.next <= |src|
  {
    var j := NumberEnd(src, pos + 1);
    Emit(src, pos, j, line, Number, NumValue(DecimalValue(src[pos..j])))
  }

  /** The 'o' branch: OR when 'r' follows, otherwise nothing at all. */
  function OStep(src: string, pos: nat, line: nat): (s: Step)
    requires pos < |src|
    ensures pos < s.next <= |src|
  {
    if MatchAt(src, pos + 1, 'r') then Emit(src, pos, pos + 2, line, Or, NilValue)
    else Skip(pos + 1, line)
  }

  /** `identifier()` for the letter at `pos`. */
  function IdentifierStep(src: string, pos: nat, line: nat): (s: Step)
    requires pos < |src|
    ensures pos < s.next <= |src|
  {
    var j := AlnumEnd(src, pos + 1);
    Emit(src, pos, j, line, KeywordType(src[pos..j]), NilValue)
  }

  /** What `scan_token` does with the cursor at `pos` and the line counter at `line`. */
  function ScanStep(src: string, pos: nat, line: nat): (s: Step)
    requires pos < |src|
    ensures pos < s.next <= |src|
  {
    var c := src[pos];
    if SingleCharType(c).Some? then Emit(src, pos, pos + 1, line, SingleCharType(c).value, NilValue)
    else if OperatorTypes(c).Some? then OperatorStep(src, pos, line, OperatorTypes(c).value.0, OperatorTypes(c).value.1)
    else if c == '/' then SlashStep(src, pos, line)
    else if c == ' ' || c == '\r' || c == '\t' then Skip(pos + 1, line)
    else if c == '\n' then Skip(pos + 1, line + 1)
    else if c == '"' then StringStep(src, pos, line)
    else if IsDigit(c) then NumberStep(src, pos, line)
    else if c == 'o' then OStep(src, pos, line)
    else if IsAlpha(c) then IdentifierStep(src, pos, line)
    else Step(pos + 1, line, [], [LexError(line, "Unexpected character.")])
  }

  /** The source range `[start, end)` a token was scanned from. */
  datatype Span = Span(start: nat, end: nat)

  /** The tokens, their spans, the errors and the final line of the scanning loop from `pos` on. */
  datatype Scan = Scan(tokens: seq<Token>, spans: seq<Span>, errors: seq<LexError>, line: nat)

  /** The `while not is_at_end()` loop of `scan_tokens`, from cursor `pos` and line `line`. */
  function ScanFrom(src: string, pos: nat, line: nat): Scan
    requires pos <= |src|
    decreases |src| - pos
  {
    if pos == |src| then Scan([], [], [], line)
    else
      var s := ScanStep(src, pos, line);
      var rest := ScanFrom(src, s.next, s.line);
      Scan(s.emitted + rest.tokens,
           (if s.emitted == [] then [] else [Span(pos, s.next)]) + rest.spans,
           s.errors + rest.errors,
           rest.line)
  }

  /** One turn of the scanning loop. */
  lemma {:induction false} ScanFromUnfold(src: string, pos: nat, line: nat)
    requires pos < |src|
    ensures var s := ScanStep(src, pos, line);
      var rest := ScanFrom(src, s.next, s.line);
      && ScanFrom(src, pos, line).tokens == s.emitted + rest.tokens
      && ScanFrom(src, pos, line).errors == s.errors + rest.errors
      && ScanFrom(src, pos, line).line == rest.line
  {
  }

  lemma {:induction false} AppendAssoc<T>(a: seq<T>, b: seq<T>, c: seq<T>)
    ensures a + (b + c) == (a + b) + c
  {
  }

  /** The token list `scan_tokens` returns for a fresh scanner over `src`. */
  function Tokenize(src: string): seq<Token> {
    var r := ScanFrom(src, 0, 1);
    r.tokens + [Token(Eof, "", NilValue, r.line)]
  }

  /** The `Scanner` object: the source, the cursor fields, the token list and the reported errors. */
  class Scanner {
    const source: string
    var tokens: seq<Token>
    var start: nat
    var current: nat
    var line: nat
    var errors: seq<LexError>

    ghost predicate Valid()
      reads this
    {
      start <= current <= |source|
    }

    constructor (source: string)
      ensures Valid() && this.source == source
      ensures tokens == [] && errors == [] && start == 0 && current == 0 && line == 1
    {
      this.source := source;
      tokens := [];
      errors := [];
      start := 0;
      current := 0;
      line := 1;
    }

    function IsAtEnd(): bool
      reads this
    {
      current >= |source|
    }

    function Peek(): char
      reads this
    {
      CharAt(source, current)
    }

    function PeekNext(): char
      reads this
    {
      CharAt(source, current + 1)
    }

    method Advance() returns (c: char)
      requires current < |source|
      modifies this`current
      ensures current == old(current) + 1 && c == source[old(current)]
    {
      c := source[current];
      current := current + 1;
    }

    method Match(expected: char) returns (matched: bool)
      modifies this`current
      ensures matched == MatchAt(source, old(current), expected)
      ensures current == old(current) + (if matched then 1 else 0)
    {
      if IsAtEnd() {
        return false;
      }
      if source[current] != expected {
        return false;
      }
      current := current + 1;
      return true;
    }

    method AddToken(tokenType: TokenType, literal: Value)
      requires start <= current <= |source|
      modifies this`tokens
      ensures tokens == old(tokens) + [Token(tokenType, source[start..current], literal, line)]
    {
      tokens := tokens + [Token(tokenType, source[start..current], literal, line)];
    }

    /** `identifier()`, called with the first letter already consumed. */
    method ScanIdentifier()
      requires start < |source| && current == start + 1
      modifies this`current, this`tokens
      ensures var s := IdentifierStep(source, start, line);
        current == s.next && tokens == old(tokens) + s.emitted
    {
      while IsAlphanumeric(Peek())
        invariant old(current) <= current <= |source|
        invariant AlnumEnd(source, current) == AlnumEnd(source, old(current))
        invariant tokens == old(tokens)
        decreases |source| - current
      {
        var _ := Advance();
      }
      var text := source[start..current];
      AddToken(KeywordType(text), NilValue);
    }

    /** The `while is_digit(peek()): advance()` loops of `number()`. */
    method SkipDigits()
      requires current <= |source|
      modifies this`current
      ensures current == DigitsEnd(source, old(current))
    {
      while IsDigit(Peek())
        invariant old(current) <= current <= |source|
        invariant DigitsEnd(source, current) == DigitsEnd(source, old(current))
        decreases |source| - current
      {
        var _ := Advance();
      }
    }

    /** `number()`, called with the first digit already consumed. */
    method ScanNumber()
      requires start < |source| && current == start + 1
      modifies this`current, this`tokens
      ensures var s := NumberStep(source, start, line);
        current == s.next && tokens == old(tokens) + s.emitted
    {
      SkipDigits();
      if Peek() == '.' && IsDigit(PeekNext()) {
        var _ := Advance();
        SkipDigits();
      }
      assert current == NumberEnd(source, start + 1);
      AddToken(Number, NumValue(DecimalValue(source[start..current])));
    }

    /** `string()`, called with the opening '"' already consumed. */
    method ScanString()
      requires start < |source| && current == start + 1
      modifies this`current, this`line, this`tokens, this`errors
      ensures var s := StringStep(source, start, old(line));
        current == s.next && line == s.line && tokens == old(tokens) + s.emitted && errors == old(errors) + s.errors
    {
      ghost var closing := ScanUntil(source, start + 1, '"');
      while Peek() != '"' && !IsAtEnd()
        invariant start + 1 <= current <= closing
        invariant line == old(line) + Newlines(source, start + 1, current)
        invariant tokens == old(tokens) && errors == old(errors)
        decreases |source| - current
      {
        if Peek() == '\n' {
          line := line + 1;
        }
        var _ := Advance();
      }
      if IsAtEnd() {
        errors := errors + [LexError(line, "Unterminated string.")];
        return;
      }
      var _ := Advance();
      var value := source[start + 1..current - 1];
      AddToken(String, StrValue(value));
    }

    /** `scan_token()`: consume one lexeme starting at `start` (which equals `current`). */
    method ScanToken()
      requires Valid() && start == current < |source|
      modifies this
      ensures Valid() && start == old(start)
      ensures var s := ScanStep(source, old(current), old(line));
        current == s.next && line == s.line && tokens == old(tokens) + s.emitted && errors == old(errors) + s.errors
    {
      var c := Advance();
      if c == '(' {
        AddToken(LeftParen, NilValue);
      } else if c == ')' {
        AddToken(RightParen, NilValue);
      } else if c == '{' {
        AddToken(LeftBrace, NilValue);
      } else if c == '}' {
        AddToken(RightBrace, NilValue);
      } else if c == ',' {
        AddToken(Comma, NilValue);
      } else if c == '.' {
        AddToken(Dot, NilValue);
      } else if c == '-' {
        AddToken(Minus, NilValue);
      } else if c == '+' {
        AddToken(Plus, NilValue);
      } else if c == ';' {
        AddToken(Semicolon, NilValue);
      } else if c == '*' {
        AddToken(Star, NilValue);
      } else {
        ScanLonger(c);
      }
    }

    /** The branches of `scan_token()` after the single-character tokens, with `c` already consumed. */
    method ScanLonger(c: char)
      requires start < |source| && current == start + 1 && c == source[start]
      requires SingleCharType(c).None?
      modifies this
      ensures Valid() && start == old(start)
      ensures var s := ScanStep(source, start, old(line));
        current == s.next && line == s.line && tokens == old(tokens) + s.emitted && errors == old(errors) + s.errors
    {
      ghost var s := ScanStep(source, start, line);
      if c == '!' {
        assert s == OperatorStep(source, start, line, BangEqual, Bang);
        var m := Match('=');
        AddToken(if m then BangEqual else Bang, NilValue);
      } else if c == '=' {
        assert s == OperatorStep(source, start, line, EqualEqual, Equal);
        var m := Match('=');
        AddToken(if m then EqualEqual else Equal, NilValue);
      } else if c == '<' {
        assert s == OperatorStep(source, start, line, LessEqual, Less);
        var m := Match('=');
        AddToken(if m then LessEqual else Less, NilValue);
      } else if c == '>' {
        assert s == OperatorStep(source, start, line, GreaterEqual, Greater);
        var m := Match('=');
        AddToken(if m then GreaterEqual else Greater, NilValue);
      } else if c == '/' {
        assert s == SlashStep(source, start, line);
        var m := Match('/');
        if m {
          ghost var lineEnd := ScanUntil(source, start + 2, '\n');
          while Peek() != '\n' && !IsAtEnd()
            invariant start + 2 <= current <= lineEnd
            invariant start == old(start) && line == old(line)
            invariant tokens == old(tokens) && errors == old(errors)
            decreases |source| - current
          {
            var _ := Advance();
          }
        } else {
          AddToken(Slash, NilValue);
        }
      } else if c == ' ' || c == '\r' || c == '\t' {
      } else if c == '\n' {
        line := line + 1;
      } else {
        ScanLiteralOrWord(c);
      }
    }

    /** The branches of `scan_token()` for strings, numbers, words and unexpected characters. */
    method ScanLiteralOrWord(c: char)
      requires start < |source| && current == start + 1 && c == source[start]
      requires SingleCharType(c).None? && OperatorTypes(c).None?
      requires c !in "/ \r\t\n"
      modifies this
      ensures Valid() && start == old(start)
      ensures var s := ScanStep(source, start, old(line));
        current == s.next && line == s.line && tokens == old(tokens) + s.emitted && errors == old(errors) + s.errors
    {
      ghost var s := ScanStep(source, start, line);
      if c == '"' {
        assert s == StringStep(source, start, line);
        ScanString();
      } else if IsDigit(c) {
        assert s == NumberStep(source, start, line);
        ScanNumber();
      } else if c == 'o' {
        assert s == OStep(source, start, line);
        var m := Match('r');
        if m {
          AddToken(Or, NilValue);
        }
      } else if IsAlpha(c) {
        assert s == IdentifierStep(source, start, line);
        ScanIdentifier();
      } else {
        errors := errors + [LexError(line, "Unexpected character.")];
      }
    }

    /** One turn of the loop in `scan_tokens()`: `start = current`, then `scan_token()`. */
    method ScanTurn()
      requires Valid() && current < |source|
      modifies this
      ensures Valid() && old(current) < current && start == old(current)
      ensures var before, after := ScanFrom(source, old(current), old(line)), ScanFrom(source, current, line);
        && old(tokens) + before.tokens == tokens + after.tokens
        && old(errors) + before.errors == errors + after.errors
        && before.line == after.line
    {
      ghost var s := ScanStep(source, current, line);
      ghost var rest := ScanFrom(source, s.next, s.line);
      ScanFromUnfold(source, current, line);
      start := current;
      ScanToken();
      AppendAssoc(old(tokens), s.emitted, rest.tokens);
      AppendAssoc(old(errors), s.errors, rest.errors);
    }

    /** `scan_tokens()`: scan to the end of the source, then append the EOF token. */
    method ScanTokens() returns (result: seq<Token>)
      requires Valid()
      modifies this
      ensures Valid() && current == |source|
      ensures var r := ScanFrom(source, old(current), old(line));
        && tokens == old(tokens) + r.tokens + [Token(Eof, "", NilValue, r.line)]
        && errors == old(errors) + r.errors
        && line == r.line
      ensures result == tokens
      // `start` is only read inside a turn; afterwards it is where the last lexeme began
      ensures old(current) < |source| ==> old(current) <= start < |source|
      ensures old(current) == |source| ==> start == old(start)
    {
      ghost var goal := ScanFrom(source, current, line);
      while !IsAtEnd()
        invariant Valid()
        invariant (current == old(current) && start == old(start)) || old(current) <= start < current
        invariant old(tokens) + goal.tokens == tokens + ScanFrom(source, current, line).tokens
        invariant old(errors) + goal.errors == errors + ScanFrom(source, current, line).errors
        invariant ScanFrom(source, current, line).line == goal.line
        decreases |source| - current
      {
        ScanTurn();
      }
      tokens := tokens + [Token(Eof, "", NilValue, line)];
      result := tokens;
    }
  }

  /** How `pylox/lox.py` uses the scanner: a fresh `Scanner` over the text, then `scan_tokens()`. */
  method ScanSource(source: string) returns (tokens: seq<Token>, errors: seq<LexError>)
    ensures tokens == Tokenize(source)
    ensures errors == ScanFrom(source, 0, 1).errors
  {
    var scanner := new Scanner(source);
    tokens := scanner.ScanTokens();
    errors := scanner.errors;
  }
}
