/**
 * Properties of the scanner of pylox/scanner/scanner.py, stated about the
 * functions `ScanStep`, `ScanFrom` and `Tokenize` that the `Scanner`
 * object's methods are proved to follow.
 */
module ScanningProperties {
  import opened Tokens
  import opened Scanning

  lemma {:induction false} NewlinesSplit(src: string, a: nat, m: nat, b: nat)
    requires a <= m <= b <= |src|
    ensures Newlines(src, a, b) == Newlines(src, a, m) + Newlines(src, m, b)
    decreases b - m
  {
    if m < b {
      NewlinesSplit(src, a, m, b - 1);
    }
  }

  lemma {:induction false} NoNewlines(src: string, a: nat, b: nat)
    requires a <= b <= |src|
    requires forall k :: a <= k < b ==> src[k] != '\n'
    ensures Newlines(src, a, b) == 0
    decreases b - a
  {
    if a < b {
      NoNewlines(src, a, b - 1);
    }
  }

  /**
   * What a call of `scan_token` from `pos` with result `s` guarantees: it
   * consumes at least one character, adds at most one token or one error,
   * every token's lexeme is the consumed text, and the line counter grows by
   * the number of '\n' characters consumed.
   */
  ghost predicate GoodStep(src: string, pos: nat, line: nat, s: Step)
    requires pos < |src|
  {
    && pos < s.next <= |src|
    && s.line == line + Newlines(src, pos, s.next)
    && |s.emitted| + |s.errors| <= 1
    && (forall t <- s.emitted :: t.lexeme == src[pos..s.next] && t.line == s.line && t.tokenType != Eof)
    && (forall e <- s.errors :: e.line == s.line)
  }

  lemma {:induction false} StringStepGood(src: string, pos: nat, line: nat)
    requires pos < |src| && src[pos] == '"'
    ensures GoodStep(src, pos, line, StringStep(src, pos, line))
  {
    var j := ScanUntil(src, pos + 1, '"');
    NewlinesSplit(src, pos, pos + 1, j);
    if j < |src| {
      NewlinesSplit(src, pos, j, j + 1);
    }
  }

  lemma {:induction false} NumberStepGood(src: string, pos: nat, line: nat)
    requires pos < |src| && IsDigit(src[pos])
    ensures GoodStep(src, pos, line, NumberStep(src, pos, line))
  {
    NoNewlines(src, pos, NumberStep(src, pos, line).next);
  }

  lemma {:induction false} IdentifierStepGood(src: string, pos: nat, line: nat)
    requires pos < |src| && IsAlpha(src[pos])
    ensures GoodStep(src, pos, line, IdentifierStep(src, pos, line))
  {
    NoNewlines(src, pos, IdentifierStep(src, pos, line).next);
  }

  lemma {:induction false} SlashStepGood(src: string, pos: nat, line: nat)
    requires pos < |src| && src[pos] == '/'
    ensures GoodStep(src, pos, line, SlashStep(src, pos, line))
  {
    NoNewlines(src, pos, SlashStep(src, pos, line).next);
  }

  /** A token whose text `src[pos..next]` holds no '\n'. */
  lemma {:induction false} EmitGood(src: string, pos: nat, next: nat, line: nat, t: TokenType, literal: Value)
    requires pos < next <= |src| && t != Eof
    requires forall k :: pos <= k < next ==> src[k] != '\n'
    ensures GoodStep(src, pos, line, Emit(src, pos, next, line, t, literal))
  {
    NoNewlines(src, pos, next);
  }

  /** Every call of `scan_token` is a `GoodStep`. */
  lemma {:induction false} StepFacts(src: string, pos: nat, line: nat)
    requires pos < |src|
    ensures GoodStep(src, pos, line, ScanStep(src, pos, line))
  {
    var c := src[pos];
    if SingleCharType(c).Some? {
      EmitGood(src, pos, pos + 1, line, SingleCharType(c).value, NilValue);
    } else if OperatorTypes(c).Some? {
      var (long, short) := OperatorTypes(c).value;
      if MatchAt(src, pos + 1, '=') {
        EmitGood(src, pos, pos + 2, line, long, NilValue);
      } else {
        EmitGood(src, pos, pos + 1, line, short, NilValue);
      }
    } else if c == '/' {
      SlashStepGood(src, pos, line);
    } else if c == ' ' || c == '\r' || c == '\t' || c == '\n' {
    } else if c == '"' {
      StringStepGood(src, pos, line);
    } else if IsDigit(c) {
      NumberStepGood(src, pos, line);
    } else if c == 'o' {
      if MatchAt(src, pos + 1, 'r') {
        EmitGood(src, pos, pos + 2, line, Or, NilValue);
      }
    } else if IsAlpha(c) {
      IdentifierStepGood(src, pos, line);
    }
  }

  /** Token `t` was scanned from `sp`, inside `src[pos..]`, and carries the line count at the end of its span. */
  ghost predicate ScannedFrom(src: string, pos: nat, line: nat, t: Token, sp: Span) {
    && pos <= sp.start < sp.end <= |src|
    && t.lexeme == src[sp.start..sp.end]
    && t.line == line + Newlines(src, pos, sp.end)
    && t.tokenType != Eof
  }

  /**
   * The scanning loop from `pos`: one span per token, each token's lexeme is
   * the source text of its span, spans come in source order without
   * overlapping, and the final line is `line` plus the '\n' count of the rest.
   */
  lemma {:induction false} ScanFromFacts(src: string, pos: nat, line: nat)
    requires pos <= |src|
    ensures var r := ScanFrom(src, pos, line);
      && |r.spans| == |r.tokens|
      && r.line == line + Newlines(src, pos, |src|)
      && (forall k :: 0 <= k < |r.tokens| ==> ScannedFrom(src, pos, line, r.tokens[k], r.spans[k]))
      && (forall k :: 0 <= k < |r.spans| - 1 ==> r.spans[k].end <= r.spans[k + 1].start)
    decreases |src| - pos
  {
    if pos < |src| {
      var s := ScanStep(src, pos, line);
      StepFacts(src, pos, line);
      ScanFromFacts(src, s.next, s.line);
      var rest := ScanFrom(src, s.next, s.line);
      NewlinesSplit(src, pos, s.next, |src|);
      ScannedFromEarlier(src, pos, s.next, line, s.line, rest.tokens, rest.spans);
      if s.emitted != [] {
        assert ScannedFrom(src, pos, line, s.emitted[0], Span(pos, s.next));
        ScannedPrepend(src, pos, line, s.emitted[0], Span(pos, s.next), rest.tokens, rest.spans);
      }
    }
  }

  /** Tokens scanned from `next` on, with the line count there, were scanned from an earlier `pos` too. */
  lemma {:induction false} ScannedFromEarlier(src: string, pos: nat, next: nat, line: nat, nextLine: nat,
                                              tokens: seq<Token>, spans: seq<Span>)
    requires pos <= next <= |src| && nextLine == line + Newlines(src, pos, next) && |spans| == |tokens|
    requires forall k :: 0 <= k < |tokens| ==> ScannedFrom(src, next, nextLine, tokens[k], spans[k])
    ensures forall k :: 0 <= k < |tokens| ==> ScannedFrom(src, pos, line, tokens[k], spans[k]) && next <= spans[k].start
  {
    forall k | 0 <= k < |tokens|
      ensures ScannedFrom(src, pos, line, tokens[k], spans[k]) && next <= spans[k].start
    {
      NewlinesSplit(src, pos, next, spans[k].end);
    }
  }

  /** Putting a token scanned before all the others at the front keeps the spans in order. */
  lemma {:induction false} ScannedPrepend(src: string, pos: nat, line: nat, t: Token, sp: Span,
                                          tokens: seq<Token>, spans: seq<Span>)
    requires ScannedFrom(src, pos, line, t, sp) && |spans| == |tokens|
    requires forall k :: 0 <= k < |tokens| ==> ScannedFrom(src, pos, line, tokens[k], spans[k]) && sp.end <= spans[k].start
    requires forall k :: 0 <= k < |spans| - 1 ==> spans[k].end <= spans[k + 1].start
    ensures var ts, ss := [t] + tokens, [sp] + spans;
      && (forall k :: 0 <= k < |ts| ==> ScannedFrom(src, pos, line, ts[k], ss[k]))
      && (forall k :: 0 <= k < |ss| - 1 ==> ss[k].end <= ss[k + 1].start)
  {
    var ts, ss := [t] + tokens, [sp] + spans;
    forall k | 0 <= k < |ts|
      ensures ScannedFrom(src, pos, line, ts[k], ss[k])
    {
      if k > 0 {
        assert ts[k] == tokens[k - 1] && ss[k] == spans[k - 1];
      }
    }
  }

  /**
   * `scan_tokens` ends the list with exactly one EOF token: empty lexeme, no
   * literal, and line 1 plus the number of '\n' characters in the source.
   */
  lemma {:induction false} TokenizeEndsWithEof(src: string)
    ensures var ts := Tokenize(src);
      && |ts| >= 1
      && ts[|ts| - 1] == Token(Eof, "", NilValue, 1 + Newlines(src, 0, |src|))
      && forall k :: 0 <= k < |ts| - 1 ==> ts[k].tokenType != Eof
  {
    ScanFromFacts(src, 0, 1);
    var r := ScanFrom(src, 0, 1);
    assert forall k :: 0 <= k < |r.tokens| ==> ScannedFrom(src, 0, 1, r.tokens[k], r.spans[k]);
  }

  /**
   * Every token before EOF was scanned from its own span of the source, the
   * spans come in source order without overlapping, and a token's line is 1
   * plus the number of '\n' characters up to the end of its span.
   */
  lemma {:induction false} TokenizeSpans(src: string)
    ensures var r, ts := ScanFrom(src, 0, 1), Tokenize(src);
      && |r.spans| == |ts| - 1
      && (forall k :: 0 <= k < |r.spans| ==>
            && r.spans[k].start < r.spans[k].end <= |src|
            && ts[k].lexeme == src[r.spans[k].start..r.spans[k].end]
            && ts[k].line == 1 + Newlines(src, 0, r.spans[k].end))
      && (forall k :: 0 <= k < |r.spans| - 1 ==> r.spans[k].end <= r.spans[k + 1].start)
  {
    ScanFromFacts(src, 0, 1);
    var r, ts := ScanFrom(src, 0, 1), Tokenize(src);
    forall k | 0 <= k < |r.spans|
      ensures && r.spans[k].start < r.spans[k].end <= |src|
              && ts[k].lexeme == src[r.spans[k].start..r.spans[k].end]
              && ts[k].line == 1 + Newlines(src, 0, r.spans[k].end)
    {
      assert ts[k] == r.tokens[k];
      assert ScannedFrom(src, 0, 1, r.tokens[k], r.spans[k]);
    }
  }

  /** `!`, `=`, `<`, `>` become the two-character operator exactly when '=' follows, and that '=' is consumed. */
  lemma {:induction false} OperatorLookahead(src: string, pos: nat, line: nat)
    requires pos < |src| && src[pos] in "!=<>"
    ensures var s, eq := ScanStep(src, pos, line), MatchAt(src, pos + 1, '=');
      && s.errors == [] && s.line == line
      && s.next == pos + (if eq then 2 else 1)
      && |s.emitted| == 1
      && (src[pos] == '!' ==> s.emitted[0].tokenType == if eq then BangEqual else Bang)
      && (src[pos] == '=' ==> s.emitted[0].tokenType == if eq then EqualEqual else Equal)
      && (src[pos] == '<' ==> s.emitted[0].tokenType == if eq then LessEqual else Less)
      && (src[pos] == '>' ==> s.emitted[0].tokenType == if eq then GreaterEqual else Greater)
  {
  }

  /** `//` starts a comment that runs up to, not including, the next '\n'; it adds no token. */
  lemma {:induction false} CommentProducesNoToken(src: string, pos: nat, line: nat)
    requires pos + 1 < |src| && src[pos] == '/' && src[pos + 1] == '/'
    ensures var s := ScanStep(src, pos, line);
      && s.emitted == [] && s.errors == [] && s.line == line
      && (s.next == |src| || src[s.next] == '\n')
      && forall k :: pos <= k < s.next ==> src[k] != '\n'
  {
  }

  /** A '/' not followed by '/' is a SLASH token. */
  lemma {:induction false} LoneSlash(src: string, pos: nat, line: nat)
    requires pos < |src| && src[pos] == '/' && !MatchAt(src, pos + 1, '/')
    ensures ScanStep(src, pos, line) == Step(pos + 1, line, [Token(Slash, "/", NilValue, line)], [])
  {
    assert src[pos..pos + 1] == "/";
  }

  /** Space, '\r' and '\t' are skipped; '\n' is skipped and counted. */
  lemma {:induction false} WhitespaceProducesNoToken(src: string, pos: nat, line: nat)
    requires pos < |src| && src[pos] in " \r\t\n"
    ensures ScanStep(src, pos, line) == Step(pos + 1, line + (if src[pos] == '\n' then 1 else 0), [], [])
  {
  }

  /**
   * A closed string is one STRING token whose lexeme includes both quotes and
   * whose literal is the text strictly between them.
   */
  lemma {:induction false} ClosedString(src: string, pos: nat, line: nat)
    requires pos < |src| && src[pos] == '"'
    requires exists k :: pos < k < |src| && src[k] == '"'
    ensures var s := ScanStep(src, pos, line);
      && pos + 2 <= s.next && src[s.next - 1] == '"'
      && (forall k :: pos < k < s.next - 1 ==> src[k] != '"')
      && s.errors == []
      && s.line == line + Newlines(src, pos, s.next)
      && s.emitted == [Token(String, src[pos..s.next], StrValue(src[pos + 1..s.next - 1]), s.line)]
  {
    var k :| pos < k < |src| && src[k] == '"';
    assert ScanUntil(src, pos + 1, '"') <= k;
    QuoteStartsString(src, pos, line);
    ClosedStringStep(src, pos, line);
  }

  lemma {:induction false} ClosedStringStep(src: string, pos: nat, line: nat)
    requires pos < |src| && src[pos] == '"' && ScanUntil(src, pos + 1, '"') < |src|
    ensures var s := StringStep(src, pos, line);
      && pos + 2 <= s.next && src[s.next - 1] == '"'
      && (forall k :: pos < k < s.next - 1 ==> src[k] != '"')
      && s.errors == []
      && s.line == line + Newlines(src, pos, s.next)
      && s.emitted == [Token(String, src[pos..s.next], StrValue(src[pos + 1..s.next - 1]), s.line)]
  {
    StringStepGood(src, pos, line);
  }

  lemma {:induction false} QuoteStartsString(src: string, pos: nat, line: nat)
    requires pos < |src| && src[pos] == '"'
    ensures ScanStep(src, pos, line) == StringStep(src, pos, line)
  {
  }

  /** A string without a closing quote reports "Unterminated string." and adds no token. */
  lemma {:induction false} UnterminatedString(src: string, pos: nat, line: nat)
    requires pos < |src| && src[pos] == '"'
    requires forall k :: pos < k < |src| ==> src[k] != '"'
    ensures var s := ScanStep(src, pos, line);
      && s.next == |src| && s.emitted == []
      && s.line == line + Newlines(src, pos, |src|)
      && s.errors == [LexError(s.line, "Unterminated string.")]
  {
    StepFacts(src, pos, line);
  }

  ghost predicate AllDigits(s: string) {
    |s| > 0 && forall k :: 0 <= k < |s| ==> IsDigit(s[k])
  }

  /** One or more digits, optionally followed by '.' and one or more digits. */
  ghost predicate IsNumberLexeme(s: string) {
    || AllDigits(s)
    || exists k :: 0 < k < |s| && s[k] == '.' && AllDigits(s[..k]) && AllDigits(s[k + 1..])
  }

  /** The text from a digit at `pos` to `NumberEnd` has the shape of a number literal. */
  lemma {:induction false} NumberLexemeShape(src: string, pos: nat)
    requires pos < |src| && IsDigit(src[pos])
    ensures IsNumberLexeme(src[pos..NumberEnd(src, pos + 1)])
  {
    var j := NumberEnd(src, pos + 1);
    var lexeme := src[pos..j];
    var k := DigitsEnd(src, pos + 1);
    if CharAt(src, k) == '.' && IsDigit(CharAt(src, k + 1)) {
      assert lexeme[k - pos] == '.';
      assert lexeme[..k - pos] == src[pos..k];
      assert lexeme[k - pos + 1..] == src[k + 1..j];
      assert AllDigits(lexeme[..k - pos]) && AllDigits(lexeme[k - pos + 1..]);
    } else {
      assert AllDigits(lexeme);
    }
  }

  /**
   * A number is the longest digit run, then '.' and a digit run only when a
   * digit follows the '.'; its literal is the value of its lexeme.
   */
  lemma {:induction false} NumberToken(src: string, pos: nat, line: nat)
    requires pos < |src| && IsDigit(src[pos])
    ensures var s := ScanStep(src, pos, line);
      var lexeme := src[pos..s.next];
      && s.errors == [] && s.line == line
      && s.emitted == [Token(Number, lexeme, NumValue(DecimalValue(lexeme)), line)]
      && IsNumberLexeme(lexeme)
      && !IsDigit(CharAt(src, s.next))
      && ('.' !in lexeme ==> !(CharAt(src, s.next) == '.' && IsDigit(CharAt(src, s.next + 1))))
  {
    var s := ScanStep(src, pos, line);
    assert s == NumberStep(src, pos, line);
    NumberLexemeShape(src, pos);
    var k := DigitsEnd(src, pos + 1);
    if CharAt(src, k) == '.' && IsDigit(CharAt(src, k + 1)) {
      assert src[pos..s.next][k - pos] == '.';
    }
  }

  /**
   * A letter other than 'o' starts an identifier: the longest run of letters,
   * digits and '_', typed by the keyword table or as IDENTIFIER.
   */
  lemma {:induction false} IdentifierToken(src: string, pos: nat, line: nat)
    requires pos < |src| && IsAlpha(src[pos]) && src[pos] != 'o'
    ensures var s := ScanStep(src, pos, line);
      var lexeme := src[pos..s.next];
      && s.errors == [] && s.line == line
      && s.emitted == [Token(KeywordType(lexeme), lexeme, NilValue, line)]
      && (forall k :: 0 <= k < |lexeme| ==> IsAlphanumeric(lexeme[k]))
      && !IsAlphanumeric(CharAt(src, s.next))
  {
  }

  /** 'o' followed by 'r' is an OR token with lexeme "or". */
  lemma {:induction false} OrFromO(src: string, pos: nat, line: nat)
    requires pos + 1 < |src| && src[pos] == 'o' && src[pos + 1] == 'r'
    ensures ScanStep(src, pos, line) == Step(pos + 2, line, [Token(Or, "or", NilValue, line)], [])
  {
    assert src[pos..pos + 2] == "or";
  }

  /** 'o' followed by anything else is dropped: no token and no error. */
  lemma {:induction false} ODropped(src: string, pos: nat, line: nat)
    requires pos < |src| && src[pos] == 'o' && !MatchAt(src, pos + 1, 'r')
    ensures ScanStep(src, pos, line) == Step(pos + 1, line, [], [])
  {
  }

  /** Any other character reports "Unexpected character." and scanning goes on after it. */
  lemma {:induction false} UnexpectedCharacter(src: string, pos: nat, line: nat)
    requires pos < |src| && !IsAlphanumeric(src[pos]) && src[pos] !in "(){},.-+;*!=<>/ \r\t\n\""
    ensures ScanStep(src, pos, line) == Step(pos + 1, line, [], [LexError(line, "Unexpected character.")])
  {
  }
}
