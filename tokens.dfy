/** The oma lexer's tokens and lexemes, and the compiler's error values. */
module Tokens {
  import opened Wrappers
  import opened Bytes
  import opened Source

  datatype Token =
    // Literals
    | Number | Bool | String | Ident | Null
    // Punctuation
    | Plus | Dash | Star | Slash | Dot | DotDot | Comma | Colon | Semicolon | Underscore | Arrow
    | Equal | EqualEqual | Bang | BangEqual | Greater | GreaterEqual | Less | LessEqual
    | And | Or | OpenParen | CloseParen | OpenBracket | CloseBracket | OpenBrace | CloseBrace
    // Keywords
    | Try | Let | Case | If | Else | For | In | While
    // Misc.
    | Comment | End

  datatype Lexeme = Lexeme(span: Span, token: Token)

  /** What a parse error found, or what it wanted instead. */
  datatype ParseExpectation = Tokens(tokens: seq<Token>) | OneToken(token: Token) | Chars(chars: seq<u8>) | Char(byte: u8)

  datatype ParseError = ParseError(span: Span, unexpected: ParseExpectation, expected: Option<ParseExpectation>)

  datatype VerifyErrorReason = InvalidCasePat | InvalidAssignee | MultipleTagArguments | ImportArgumentNotString | UnresolvedIdentifier

  datatype VerifyError = VerifyError(span: Span, reason: VerifyErrorReason)

  /**
   * A compile error. `Panic` stands for the front end's Rust panics
   * (`unimplemented!` paths); I/O errors are not part of this model.
   */
  datatype CompileError = Parse(parse: ParseError) | Verify(verify: VerifyError) | Panic

  /** `ParseError::end`: input ended where other bytes were expected. */
  function EndError(span: Span, expected: Option<seq<u8>>): ParseError
  {
    ParseError(span, OneToken(End), if expected.Some? then Some(Chars(expected.value)) else None)
  }

  /** `ParseError::chars`: an unexpected byte. */
  function CharsError(span: Span, unexpected: u8, expected: Option<seq<u8>>): ParseError
  {
    ParseError(span, Char(unexpected), if expected.Some? then Some(Chars(expected.value)) else None)
  }

  /** `ParseError::tokens`: an unexpected token. */
  function TokensError(span: Span, unexpected: Token, expected: Option<seq<Token>>): ParseError
  {
    ParseError(span, OneToken(unexpected), if expected.Some? then Some(Tokens(expected.value)) else None)
  }
}
