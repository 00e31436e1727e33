/**
 * The token record produced by the scanner and consumed by the parser
 * (`TokenItem` in pylox/scanner/token_item.py), the token kinds the code
 * refers to, and the literal payload a token or a `Literal` node carries.
 */
module Tokens {

  /** The token kinds named by the scanner, the parser and the interpreter. */
  datatype TokenType =
    // single-character tokens
    | LeftParen | RightParen | LeftBrace | RightBrace
    | Comma | Dot | Minus | Plus | Semicolon | Slash | Star
    // one- or two-character tokens
    | Bang | BangEqual | Equal | EqualEqual
    | Greater | GreaterEqual | Less | LessEqual
    // literals
    | Identifier | String | Number
    // keywords
    | And | Class | Else | False | Fun | For | If | Nil | Or
    | Print | Return | Super | This | True | Var | While
    | Eof

  /**
   * A Python object as the front end uses it: `None`, a `bool`, a
   * `float` (kept as an exact real number) or a `str`.
   */
  datatype Value =
    | NilValue
    | BoolValue(b: bool)
    | NumValue(n: real)
    | StrValue(s: string)

  /** `TokenItem`: kind, the source text it was scanned from, its literal and its line. */
  datatype Token = Token(tokenType: TokenType, lexeme: string, literal: Value, line: nat)
}
