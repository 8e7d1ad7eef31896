/**
 * Tokens as the scanner produces them. Token.kt and TokenType.kt are not part of this model; the
 * token kinds and the token record are the ones Scanner.kt and Parser.kt use.
 */
module Tokens {
  import opened Offset

  datatype TokenType =
    // single-character tokens
    | LeftParen | RightParen | LeftBrace | RightBrace
    | Comma | Dot | Minus | Plus | Semicolon | Slash | Star
    // one- or two-character tokens
    | Bang | BangEqual | Equal | EqualEqual
    | Greater | GreaterEqual | Less | LessEqual
    // literals
    | Identifier | String | Number
    // keywords
    | And | Class | Else | False | Fun | For | If | Nil | Or
    | Print | Return | Super | This | True | Var | While
    | Eof

  /**
   * A literal value: the scanner's `literal` field (null, a parsed number or a string) and the
   * value of a literal expression (which may also be a boolean). Numbers are exact decimals here;
   * Kotlin's rounding to a 64-bit double is not modelled.
   */
  datatype Literal = NilLit | BoolLit(b: bool) | NumLit(n: real) | StrLit(s: string)

  datatype Token = Token(kind: TokenType, lexeme: string, literal: Literal, position: Position)
}
