/**
 * scripting-language-2's tokens: a kind and the line/column position the
 * lexer saw it at. Numbers are f32 values; the model keeps their 32-bit
 * pattern, since nothing in the parser or the chunk looks inside them.
 */
module Sl2Token {
  /** A source position; the lexer starts at line 1, column 1. */
  datatype Pos = Pos(line: nat, column: nat)

  const Start: Pos := Pos(1, 1)

  datatype TokenKind =
    | And
    | Or
    | Not
    | Add
    | Subtract
    | Multiply
    | Divide
    | Power
    | Assign
    | LeftParen
    | RightParen
    | Identifier(name: string)
    | Number(bits: nat)
    | EndOfFile

  datatype Token = Token(pos: Pos, kind: TokenKind)
}
