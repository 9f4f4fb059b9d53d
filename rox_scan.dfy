/**
 * rox's scanner: a byte cursor over the source that yields one token per
 * call, after skipping whitespace and `//` comments and counting lines.
 *
 * The cursor moves past the end of the text: every call at the end reads one
 * byte that is not there, so the Eof token's range lies one byte past the
 * source (its text is never asked for).
 */
module RoxScan {
  import opened Wrappers
  import opened Bytes
  import opened Source

  datatype TokenType =
    // Single-character tokens
    | LeftParen | RightParen | LeftBrace | RightBrace | Comma | Dot | Minus | Plus | Semicolon | Slash | Star
    // One or two character tokens
    | Bang | BangEqual | Equal | EqualEqual | Greater | GreaterEqual | Less | LessEqual
    // Literals
    | Identifier | String | Number
    // Keywords
    | And | Class | Else | False | For | Fun | If | Nil | Or | Print | Return | Super | This | True | Var | While
    | Eof | Error

  /**
   * A token: its type, its line, and its text as the range `[start, start + len)`
   * of `source`. An Error token's source is its message.
   */
  datatype Token = Token(ty: TokenType, line: nat, source: seq<u8>, start: nat, len: nat)

  /** `as_str`: the token's text, where its range lies inside its source. */
  function Text(t: Token): (r: seq<u8>)
    requires t.start + t.len <= |t.source|
    ensures |r| == t.len
  {
    t.source[t.start..t.start + t.len]
  }

  /** Where the token being scanned started, the next byte to read, and the line counter. */
  datatype Cursor = Cursor(start: nat, current: nat, line: nat)

  const Tab: u8 := 9
  const CarriageReturn: u8 := 13
  const Space: u8 := 32
  const Quote: u8 := 34
  const Dot_: u8 := 46
  const Slash_: u8 := 47
  const Equals: u8 := 61

  predicate IsAlpha(b: u8) { 97 <= b <= 122 || 65 <= b <= 90 || b == 95 }
  predicate IsDigit(b: u8) { 48 <= b <= 57 }

  /** A byte `skip_whitespace` passes over on its own. */
  predicate IsBlank(b: u8) { b == Space || b == CarriageReturn || b == Tab || b == Newline }

  /** Position p starts a `//` comment. */
  predicate StartsComment(src: seq<u8>, p: nat) {
    p + 1 < |src| && src[p] == Slash_ && src[p + 1] == Slash_
  }

  /**
   * `skip_whitespace` from position p with line counter `line`: where it stops
   * and the line counter then. It passes blanks and comments, counting each
   * newline, and stops at the end or at a byte that is neither.
   */
  function Skip(src: seq<u8>, p: nat, line: nat): (r: (nat, nat))
    ensures p <= r.0
    ensures p >= |src| ==> r == (p, line)
    ensures p < |src| ==> r.0 <= |src| && r.1 as int == line + Newlines(src, r.0) - Newlines(src, p)
    ensures r.0 < |src| ==> !IsBlank(src[r.0]) && !StartsComment(src, r.0)
    decreases |src| - p
  {
    if p >= |src| then (p, line)
    else if src[p] == Space || src[p] == CarriageReturn || src[p] == Tab then Skip(src, p + 1, line)
    else if src[p] == Newline then Skip(src, p + 1, line + 1)
    else if StartsComment(src, p) then
      NewlinesFlat(src, p, LineEnd(src, p));
      Skip(src, LineEnd(src, p), line)
    else (p, line)
  }

  /**
   * The string loop from p: the position of the closing quote (or the end)
   * and the line counter after the newlines before it.
   */
  function StringRun(src: seq<u8>, p: nat, line: nat): (r: (nat, nat))
    requires p <= |src|
    ensures p <= r.0 <= |src|
    ensures forall i :: p <= i < r.0 ==> src[i] != Quote
    ensures r.0 < |src| ==> src[r.0] == Quote
    ensures r.1 as int == line + Newlines(src, r.0) - Newlines(src, p)
    decreases |src| - p
  {
    if p == |src| || src[p] == Quote then (p, line)
    else StringRun(src, p + 1, if src[p] == Newline then line + 1 else line)
  }

  /** The end of the run of digits from p. */
  function DigitsEnd(src: seq<u8>, p: nat): (r: nat)
    requires p <= |src|
    ensures p <= r <= |src|
    ensures forall i :: p <= i < r ==> IsDigit(src[i])
    ensures r < |src| ==> !IsDigit(src[r])
    decreases |src| - p
  {
    if p < |src| && IsDigit(src[p]) then DigitsEnd(src, p + 1) else p
  }

  /** The end of a number's digits from p: a `.` and more digits follow only if a digit comes after the `.`. */
  function NumberEnd(src: seq<u8>, p: nat): (r: nat)
    requires p <= |src|
    ensures p <= r <= |src|
    ensures forall i :: p <= i < r ==> IsDigit(src[i]) || src[i] == Dot_
  {
    var d := DigitsEnd(src, p);
    if d + 1 < |src| && src[d] == Dot_ && IsDigit(src[d + 1]) then DigitsEnd(src, d + 1) else d
  }

  /** The end of the run of letters, digits and `_` from p. */
  function IdentEnd(src: seq<u8>, p: nat): (r: nat)
    requires p <= |src|
    ensures p <= r <= |src|
    ensures forall i :: p <= i < r ==> IsAlpha(src[i]) || IsDigit(src[i])
    ensures r < |src| ==> !IsAlpha(src[r]) && !IsDigit(src[r])
    decreases |src| - p
  {
    if p < |src| && (IsAlpha(src[p]) || IsDigit(src[p])) then IdentEnd(src, p + 1) else p
  }

  predicate IsKeyword(t: TokenType) {
    t in {And, Class, Else, If, Nil, Or, Print, Return, Super, Var, While, False, For, Fun, This, True}
  }

  /** How each keyword is spelled. */
  function Spelling(t: TokenType): string {
    match t
    case And => "and" case Class => "class" case Else => "else" case If => "if"
    case Nil => "nil" case Or => "or" case Print => "print" case Return => "return"
    case Super => "super" case Var => "var" case While => "while" case False => "false"
    case For => "for" case Fun => "fun" case This => "this" case True => "true"
    case _ => ""
  }

  /** `identifier_type`: the keyword spelled exactly by `word`, else Identifier. */
  function Keyword(word: seq<u8>): (t: TokenType)
    ensures t == Identifier || IsKeyword(t)
  {
    var w := CharsOf(word);
    if w == "and" then And
    else if w == "class" then Class
    else if w == "else" then Else
    else if w == "if" then If
    else if w == "nil" then Nil
    else if w == "or" then Or
    else if w == "print" then Print
    else if w == "return" then Return
    else if w == "super" then Super
    else if w == "var" then Var
    else if w == "while" then While
    else if w == "false" then False
    else if w == "for" then For
    else if w == "fun" then Fun
    else if w == "this" then This
    else if w == "true" then True
    else Identifier
  }

  /** A word is a keyword only if it spells that keyword exactly. */
  lemma KeywordSpelled(word: seq<u8>)
    ensures Keyword(word) == Identifier || CharsOf(word) == Spelling(Keyword(word))
  {
    var w := CharsOf(word);
    if w == "and" {
      assert Keyword(word) == And;
    } else if w == "class" {
      assert Keyword(word) == Class;
    } else if w == "else" {
      assert Keyword(word) == Else;
    } else if w == "if" {
      assert Keyword(word) == If;
    } else if w == "nil" {
      assert Keyword(word) == Nil;
    } else if w == "or" {
      assert Keyword(word) == Or;
    } else if w == "print" {
      assert Keyword(word) == Print;
    } else if w == "return" {
      assert Keyword(word) == Return;
    } else if w == "super" {
      assert Keyword(word) == Super;
    } else if w == "var" {
      assert Keyword(word) == Var;
    } else if w == "while" {
      assert Keyword(word) == While;
    } else if w == "false" {
      assert Keyword(word) == False;
    } else if w == "for" {
      assert Keyword(word) == For;
    } else if w == "fun" {
      assert Keyword(word) == Fun;
    } else if w == "this" {
      assert Keyword(word) == This;
    } else if w == "true" {
      assert Keyword(word) == True;
    }
  }

  /** A word spelling a keyword exactly is that keyword. */
  lemma KeywordExact(word: seq<u8>, k: TokenType)
    requires IsKeyword(k) && CharsOf(word) == Spelling(k)
    ensures Keyword(word) == k
  {
    var w := CharsOf(word);
    match k
    case And => assert w == "and";
    case Class => assert w == "class";
    case Else => assert w == "else";
    case If => assert w == "if";
    case Nil => assert w == "nil";
    case Or => assert w == "or";
    case Print => assert w == "print";
    case Return => assert w == "return";
    case Super => assert w == "super";
    case Var => assert w == "var";
    case While => assert w == "while";
    case False => assert w == "false";
    case For => assert w == "for";
    case Fun => assert w == "fun";
    case This => assert w == "this";
    case True => assert w == "true";
  }

  /** The tokens one byte makes on its own. */
  function Single(b: u8): (r: Option<TokenType>)
  {
    if b == 40 then Some(LeftParen)
    else if b == 41 then Some(RightParen)
    else if b == 123 then Some(LeftBrace)
    else if b == 125 then Some(RightBrace)
    else if b == 59 then Some(Semicolon)
    else if b == 44 then Some(Comma)
    else if b == Dot_ then Some(Dot)
    else if b == 45 then Some(Minus)
    else if b == 43 then Some(Plus)
    else if b == Slash_ then Some(Slash)
    else if b == 42 then Some(Star)
    else None
  }

  /** `!`, `=`, `<` and `>`: the token alone, and the token followed by `=`. */
  function OneOrTwo(b: u8): (r: Option<(TokenType, TokenType)>)
  {
    if b == 33 then Some((Bang, BangEqual))
    else if b == Equals then Some((Equal, EqualEqual))
    else if b == 60 then Some((Less, LessEqual))
    else if b == 62 then Some((Greater, GreaterEqual))
    else None
  }

  /** `make_token`: the text from `start` to `end` of the source. */
  function Made(src: seq<u8>, start: nat, end: nat, line: nat, ty: TokenType): (Token, Cursor)
    requires start <= end
  {
    (Token(ty, line, src, start, end - start), Cursor(start, end, line))
  }

  /** `error_token`: the message is the token's whole source. */
  function ErrorToken(message: seq<u8>, line: nat): (t: Token)
    ensures t.ty == Error && t.start + t.len <= |t.source| && Text(t) == message
  {
    Token(Error, line, message, 0, |message|)
  }

  /** The UTF-8 bytes of the character `b as char`: Latin-1 read as Unicode. */
  function Latin1Utf8(b: u8): (r: seq<u8>)
    ensures |r| == if b < 0x80 then 1 else 2
  {
    if b < 0x80 then [b] else [(0xC0 + b as int / 64) as u8, (0x80 + b as int % 64) as u8]
  }

  /** The message for a byte that starts no token. */
  function UnexpectedMessage(b: u8): seq<u8> {
    Ascii("unexpected char ") + Latin1Utf8(b)
  }

  /** `string`, with the opening quote at `w`. */
  function StringToken(src: seq<u8>, w: nat, line: nat): (Token, Cursor)
    requires w < |src|
  {
    var run := StringRun(src, w + 1, line);
    if run.0 == |src| then (ErrorToken(Ascii("unterminated string"), run.1), Cursor(w, run.0, run.1))
    else Made(src, w, run.0 + 1, run.1, String)
  }

  /** A word from `w`: its type is the keyword it spells, if any. */
  function WordToken(src: seq<u8>, w: nat, line: nat): (Token, Cursor)
    requires w < |src|
  {
    var e := IdentEnd(src, w + 1);
    Made(src, w, e, line, Keyword(src[w..e]))
  }

  /** The token starting at `w`, the first byte after whitespace and comments. */
  function TokenAt(src: seq<u8>, w: nat, line: nat): (Token, Cursor)
    requires w < |src|
  {
    var b := src[w];
    if Single(b).Some? then Made(src, w, w + 1, line, Single(b).value)
    else if OneOrTwo(b).Some? then
      if w + 1 < |src| && src[w + 1] == Equals then Made(src, w, w + 2, line, OneOrTwo(b).value.1)
      else Made(src, w, w + 1, line, OneOrTwo(b).value.0)
    else if b == Quote then StringToken(src, w, line)
    else if IsDigit(b) then Made(src, w, NumberEnd(src, w + 1), line, Number)
    else if IsAlpha(b) then WordToken(src, w, line)
    else (ErrorToken(UnexpectedMessage(b), line), Cursor(w, w + 1, line))
  }

  /** `scan_token`: the next token and the cursor after it. */
  function Scan(src: seq<u8>, c: Cursor): (Token, Cursor)
  {
    var skipped := Skip(src, c.current, c.line);
    if skipped.0 >= |src| then (Token(Eof, skipped.1, src, skipped.0, 1), Cursor(skipped.0, skipped.0 + 1, skipped.1))
    else TokenAt(src, skipped.0, skipped.1)
  }

  class Scanner {
    const source: seq<u8>
    var start: nat
    var current: nat
    var line: nat

    function Position(): Cursor
      reads this
    {
      Cursor(start, current, line)
    }

    /** `Scanner::new`: at the first byte, on line 1. */
    constructor (source: seq<u8>)
      ensures this.source == source && Position() == Cursor(0, 0, 1)
    {
      this.source := source;
      start := 0;
      current := 0;
      line := 1;
    }

    function Peek(): (r: Option<u8>)
      reads this
      ensures r.Some? <==> current < |source|
      ensures r.Some? ==> r.value == source[current]
    {
      if current < |source| then Some(source[current]) else None
    }

    function PeekNext(): (r: Option<u8>)
      reads this
      ensures r.Some? <==> current + 1 < |source|
      ensures r.Some? ==> r.value == source[current + 1]
    {
      if current + 1 < |source| then Some(source[current + 1]) else None
    }

    /** `advance`: moves on one byte even at the end, and returns the byte passed, if any. */
    method Advance() returns (r: Option<u8>)
      modifies this
      ensures current == old(current) + 1 && start == old(start) && line == old(line)
      ensures r == old(Peek())
    {
      current := current + 1;
      r := if current - 1 < |source| then Some(source[current - 1]) else None;
    }

    /** `expect`: consumes the next byte only if it is `expected`. */
    method Expect(expected: u8) returns (matched: bool)
      modifies this
      ensures matched <==> old(Peek()) == Some(expected)
      ensures current == old(current) + (if matched then 1 else 0) && start == old(start) && line == old(line)
    {
      matched := Peek() == Some(expected);
      if matched {
        var _ := Advance();
      }
    }

    method SkipWhitespace()
      modifies this
      ensures start == old(start) && (current, line) == Skip(source, old(current), old(line))
    {
      while true
        invariant start == old(start) && Skip(source, current, line) == Skip(source, old(current), old(line))
        decreases |source| - current
      {
        var peek := Peek();
        if peek.None? {
          return;
        }
        var byte := peek.value;
        if byte == Space || byte == CarriageReturn || byte == Tab {
          var _ := Advance();
        } else if byte == Slash_ {
          if PeekNext() != Some(Slash_) {
            return;
          }
          ghost var from, line0 := current, line;
          while true
            invariant from <= current <= |source| && start == old(start) && line == line0
            invariant LineEnd(source, current) == LineEnd(source, from)
            decreases |source| - current
          {
            var next := Peek();
            if next == Some(Newline) || next.None? {
              break;
            }
            var _ := Advance();
          }
        } else if byte == Newline {
          line := line + 1;
          var _ := Advance();
        } else {
          return;
        }
      }
    }

    /** `string`: the bytes up to the closing quote, counting newlines, and the quote. */
    method ScanString() returns (t: Token)
      requires start < |source| && current == start + 1
      modifies this
      ensures start == old(start) && (t, Position()) == StringToken(source, start, old(line))
    {
      while Peek().Some? && Peek().value != Quote
        invariant start + 1 <= current <= |source| && start == old(start)
        invariant StringRun(source, current, line) == StringRun(source, start + 1, old(line))
        decreases |source| - current
      {
        if Peek().value == Newline {
          line := line + 1;
        }
        var _ := Advance();
      }
      if Peek().None? {
        return ErrorToken(Ascii("unterminated string"), line);
      }
      var _ := Advance();
      t := Made(source, start, current, line, String).0;
    }

    /** `number`: digits, then a `.` and digits only if a digit follows the `.`. */
    method ScanNumber() returns (t: Token)
      requires start < current <= |source|
      modifies this
      ensures start == old(start) && line == old(line) && current == NumberEnd(source, old(current))
      ensures t == Made(source, start, current, line, Number).0
    {
      while Peek().Some? && IsDigit(Peek().value)
        invariant old(current) <= current <= |source| && start == old(start) && line == old(line)
        invariant DigitsEnd(source, current) == DigitsEnd(source, old(current))
        decreases |source| - current
      {
        var _ := Advance();
      }
      if Peek() == Some(Dot_) && PeekNext().Some? && IsDigit(PeekNext().value) {
        var _ := Advance();
        ghost var from := current;
        while Peek().Some? && IsDigit(Peek().value)
          invariant from <= current <= |source| && start == old(start) && line == old(line)
          invariant DigitsEnd(source, current) == DigitsEnd(source, from)
          decreases |source| - current
        {
          var _ := Advance();
        }
      }
      t := Made(source, start, current, line, Number).0;
    }

    /** `identifier`: letters, digits and `_`, then the keyword the word spells, if any. */
    method ScanIdentifier() returns (t: Token)
      requires start < current <= |source|
      modifies this
      ensures start == old(start) && line == old(line) && current == IdentEnd(source, old(current))
      ensures t == Made(source, start, current, line, Keyword(source[start..current])).0
    {
      while Peek().Some? && (IsAlpha(Peek().value) || IsDigit(Peek().value))
        invariant old(current) <= current <= |source| && start == old(start) && line == old(line)
        invariant IdentEnd(source, current) == IdentEnd(source, old(current))
        decreases |source| - current
      {
        var _ := Advance();
      }
      t := Made(source, start, current, line, Keyword(source[start..current])).0;
    }

    /** `scan_token`. */
    method ScanToken() returns (t: Token)
      modifies this
      ensures (t, Position()) == Scan(source, old(Position()))
    {
      SkipWhitespace();
      start := current;
      var next := Advance();
      if next.None? {
        return Made(source, start, current, line, Eof).0;
      }
      var byte := next.value;
      if Single(byte).Some? {
        t := Made(source, start, current, line, Single(byte).value).0;
      } else if OneOrTwo(byte).Some? {
        var two := Expect(Equals);
        var ty := if two then OneOrTwo(byte).value.1 else OneOrTwo(byte).value.0;
        t := Made(source, start, current, line, ty).0;
      } else if byte == Quote {
        t := ScanString();
      } else if IsDigit(byte) {
        t := ScanNumber();
      } else if IsAlpha(byte) {
        t := ScanIdentifier();
      } else {
        t := ErrorToken(UnexpectedMessage(byte), line);
      }
    }
  }
}
