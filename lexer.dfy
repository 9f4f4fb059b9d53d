/**
 * The oma lexer: a byte cursor over the source that yields one lexeme per
 * call, skipping whitespace first.
 */
module Lexer {
  import opened Wrappers
  import opened Bytes
  import opened Source
  import opened Tokens

  const Quote: u8 := 34
  const Underline: u8 := 95

  predicate IsDigit(b: u8) { 48 <= b <= 57 }
  predicate IsAlphabetic(b: u8) { 97 <= b <= 122 || 65 <= b <= 90 }
  predicate IsWhitespace(b: u8) { b == 13 || b == 32 || b == 9 || b == 10 }
  predicate IsIdentByte(b: u8) { IsDigit(b) || IsAlphabetic(b) || b == Underline }

  // The positions the sub-scanners stop at

  /** The first byte at or after `p` that is not whitespace, or the end. */
  function SkipSpace(c: seq<u8>, p: nat): (r: nat)
    requires p <= |c|
    ensures p <= r <= |c|
    ensures forall i :: p <= i < r ==> IsWhitespace(c[i])
    ensures r < |c| ==> !IsWhitespace(c[r])
    decreases |c| - p
  {
    if p < |c| && IsWhitespace(c[p]) then SkipSpace(c, p + 1) else p
  }

  /** Where an identifier running from `p` ends. */
  function IdentEnd(c: seq<u8>, p: nat): (r: nat)
    requires p <= |c|
    ensures p <= r <= |c|
    ensures forall i :: p <= i < r ==> IsIdentByte(c[i])
    ensures r < |c| ==> !IsIdentByte(c[r])
    decreases |c| - p
  {
    if p < |c| && IsIdentByte(c[p]) then IdentEnd(c, p + 1) else p
  }

  /** Where a number running from `p` ends: digits and, once, a dot. */
  function NumberEnd(c: seq<u8>, p: nat, hasDecimal: bool): (r: nat)
    requires p <= |c|
    ensures p <= r <= |c|
    ensures forall i :: p <= i < r ==> IsDigit(c[i]) || c[i] == Period
    ensures r < |c| ==> !IsDigit(c[r]) && (c[r] != Period || hasDecimal || Dots(c, p, r) == 1)
    ensures Dots(c, p, r) <= (if hasDecimal then 0 else 1)
    decreases |c| - p
  {
    if p < |c| && c[p] == Period && !hasDecimal then
      DotsStep(c, p, NumberEnd(c, p + 1, true));
      NumberEnd(c, p + 1, true)
    else if p < |c| && IsDigit(c[p]) then
      DotsStep(c, p, NumberEnd(c, p + 1, hasDecimal));
      NumberEnd(c, p + 1, hasDecimal)
    else p
  }

  const Period: u8 := 46

  /** The number of dots in `c[p..q]`. */
  function Dots(c: seq<u8>, p: nat, q: nat): nat
    requires p <= q <= |c|
    decreases q - p
  {
    if p == q then 0 else (if c[p] == Period then 1 else 0) + Dots(c, p + 1, q)
  }

  lemma DotsStep(c: seq<u8>, p: nat, q: nat)
    requires p < q <= |c|
    ensures Dots(c, p, q) == (if c[p] == Period then 1 else 0) + Dots(c, p + 1, q)
  {
  }

  /** The first quote at or after `p`, or the end. */
  function QuoteAt(c: seq<u8>, p: nat): (r: nat)
    requires p <= |c|
    ensures p <= r <= |c|
    ensures forall i :: p <= i < r ==> c[i] != Quote
    ensures r < |c| ==> c[r] == Quote
    decreases |c| - p
  {
    if p == |c| || c[p] == Quote then p else QuoteAt(c, p + 1)
  }

  /** The token a word names: a keyword, a literal keyword or an identifier. */
  function Keyword(word: seq<u8>): (t: Token)
    ensures t in {Try, Let, If, Else, Case, For, In, While, Bool, Null, Ident}
    ensures t == Bool <==> CharsOf(word) == "true" || CharsOf(word) == "false"
    ensures t == Null <==> CharsOf(word) == "null"
    ensures t == While <==> CharsOf(word) == "while"
    ensures t == Ident <==> CharsOf(word) !in {"try", "let", "if", "else", "case", "for", "in", "while", "true", "false", "null"}
  {
    var w := CharsOf(word);
    if w == "try" then Try
    else if w == "let" then Let
    else if w == "if" then If
    else if w == "else" then Else
    else if w == "case" then Case
    else if w == "for" then For
    else if w == "in" then In
    else if w == "while" then While
    else if w == "true" || w == "false" then Bool
    else if w == "null" then Null
    else Ident
  }

  /**
   * The token for punctuation starting with byte `b`, followed by `next`, and
   * how many bytes it takes; `None` for a byte that starts no token.
   */
  function Punctuation(b: u8, next: Option<u8>): (r: Option<(Token, nat)>)
    ensures r.Some? ==> 1 <= r.value.1 <= 2
    ensures r.Some? && r.value.1 == 2 ==> next.Some?
  {
    var two := (t: Token) => Some((t, 2));
    var one := (t: Token) => Some((t, 1));
    var n: int := if next.Some? then next.value as int else -1;
    if b == 43 then one(Plus)
    else if b == 45 then (if n == 62 then two(Arrow) else one(Dash))
    else if b == 42 then one(Star)
    else if b == 47 then one(Slash)
    else if b == Underline then one(Underscore)
    else if b == Period then (if n == 46 then two(DotDot) else one(Dot))
    else if b == 44 then one(Comma)
    else if b == 58 then one(Colon)
    else if b == 59 then one(Semicolon)
    else if b == 40 then one(OpenParen)
    else if b == 41 then one(CloseParen)
    else if b == 91 then one(OpenBracket)
    else if b == 93 then one(CloseBracket)
    else if b == 123 then one(OpenBrace)
    else if b == 125 then one(CloseBrace)
    else if b == 38 then (if n == 38 then two(And) else None)
    else if b == 124 then (if n == 124 then two(Or) else None)
    else if b == 61 then (if n == 61 then two(EqualEqual) else one(Equal))
    else if b == 33 then (if n == 61 then two(BangEqual) else one(Bang))
    else if b == 62 then (if n == 61 then two(GreaterEqual) else one(Greater))
    else if b == 60 then (if n == 61 then two(LessEqual) else one(Less))
    else None
  }

  /** What one call of `next` yields, and the lexer's `start` and `end` after it. */
  datatype LexStep = LexStep(result: Result<Lexeme, CompileError>, start: nat, end: nat)

  function Lexed(c: seq<u8>, start: nat, end: nat, t: Token): LexStep
    requires start <= end
  {
    LexStep(Ok(Lexeme(Span(c, start, end), t)), start, end)
  }

  /** `Lexer::next` from position `p`. */
  function Scan(c: seq<u8>, p: nat): LexStep
    requires p <= |c|
  {
    var s := SkipSpace(c, p);
    if s == |c| then Lexed(c, s, s, End)
    else
      var b := c[s];
      if b == Quote then
        var q := QuoteAt(c, s + 1);
        if q == |c| then LexStep(Err(Parse(EndError(Span(c, s, q), Some([Quote])))), s, q)
        else Lexed(c, s, q + 1, String)
      else if IsDigit(b) then Lexed(c, s, NumberEnd(c, s, false), Number)
      else if b == Underline || IsAlphabetic(b) then
        var e := IdentEnd(c, s);
        Lexed(c, s, e, Keyword(c[s..e]))
      else
        var next := if s + 1 < |c| then Some(c[s + 1]) else None;
        if b == 47 && next == Some(47) then Lexed(c, s, LineEnd(c, s + 2), Comment)
        else match Punctuation(b, next)
          case Some((t, width)) => Lexed(c, s, s + width, t)
          case None => LexStep(Err(Parse(CharsError(Span(c, s, s + 1), b, None))), s, s + 1)
  }

  /** The two-byte tokens, as pairs of bytes. */
  function TwoByteToken(b: u8, n: u8): (r: Option<Token>)
  {
    if b == 45 && n == 62 then Some(Arrow)
    else if b == 46 && n == 46 then Some(DotDot)
    else if b == 38 && n == 38 then Some(And)
    else if b == 124 && n == 124 then Some(Or)
    else if b == 61 && n == 61 then Some(EqualEqual)
    else if b == 33 && n == 61 then Some(BangEqual)
    else if b == 62 && n == 61 then Some(GreaterEqual)
    else if b == 60 && n == 61 then Some(LessEqual)
    else None
  }

  /**
   * Each lexeme's span is exactly the bytes consumed after the whitespace:
   * `start` is where the whitespace ends, and every lexeme but End takes at
   * least one byte. End comes only at the end of input, and takes none.
   */
  lemma ScanSpan(c: seq<u8>, p: nat)
    requires p <= |c|
    ensures var r := Scan(c, p);
      r.start == SkipSpace(c, p) && r.start <= r.end <= |c|
      && (r.result.Ok? ==> r.result.value.span == Span(c, r.start, r.end))
      && (r.result.Ok? && r.result.value.token == End <==> r.start == |c|)
      && (r.start < |c| ==> r.start < r.end)
  {
  }

  /** At or past the end of input, `next` yields End, and again End after it. */
  lemma EndRepeats(c: seq<u8>, p: nat)
    requires p <= |c| && SkipSpace(c, p) == |c|
    ensures Scan(c, p) == Lexed(c, |c|, |c|, End)
    ensures Scan(c, Scan(c, p).end) == Scan(c, p)
  {
  }

  /** A two-byte token wins over its one-byte prefix. */
  lemma TwoBytesWin(c: seq<u8>, p: nat)
    requires p <= |c|
    requires var s := SkipSpace(c, p); s + 1 < |c| && TwoByteToken(c[s], c[s + 1]).Some?
    ensures var s := SkipSpace(c, p);
      Scan(c, p) == Lexed(c, s, s + 2, TwoByteToken(c[s], c[s + 1]).value)
  {
  }

  /** A lone `&` or `|` is an unexpected byte. */
  lemma LoneAmpersandOrBar(c: seq<u8>, p: nat)
    requires p <= |c|
    requires var s := SkipSpace(c, p);
      (s < |c| && (c[s] == 38 || c[s] == 124) && (s + 1 == |c| || c[s + 1] != c[s]))
    ensures var s := SkipSpace(c, p);
      Scan(c, p) == LexStep(Err(Parse(CharsError(Span(c, s, s + 1), c[s], None))), s, s + 1)
  {
  }

  /**
   * A word starting with a letter or `_` runs over letters, digits and `_`;
   * its token is its keyword, or Ident.
   */
  lemma Word(c: seq<u8>, p: nat)
    requires p <= |c|
    requires var s := SkipSpace(c, p); s < |c| && (IsAlphabetic(c[s]) || c[s] == Underline)
    ensures var s := SkipSpace(c, p); var r := Scan(c, p);
      r.result.Ok? && r.result.value.token == Keyword(c[s..r.end])
      && (forall i :: s <= i < r.end ==> IsIdentByte(c[i]))
      && (r.end < |c| ==> !IsIdentByte(c[r.end]))
  {
  }

  /** `_` on its own is an Ident: the lexer never yields Underscore. */
  lemma NoUnderscore(c: seq<u8>, p: nat)
    requires p <= |c|
    ensures Scan(c, p).result.Ok? ==> Scan(c, p).result.value.token != Underscore
  {
  }

  /** A number holds digits and at most one dot; a second dot ends it. */
  lemma NumberToken(c: seq<u8>, p: nat)
    requires p <= |c|
    requires var s := SkipSpace(c, p); s < |c| && IsDigit(c[s])
    ensures var s := SkipSpace(c, p); var r := Scan(c, p);
      r.result == Ok(Lexeme(Span(c, s, r.end), Number))
      && (forall i :: s <= i < r.end ==> IsDigit(c[i]) || c[i] == Period)
      && Dots(c, s, r.end) <= 1
      && (r.end < |c| ==> !IsDigit(c[r.end]) && (c[r.end] == Period ==> Dots(c, s, r.end) == 1))
  {
  }

  /**
   * A string runs from its quote to the next quote, both included; without a
   * closing quote it is an end-of-input error over the rest of the text.
   */
  lemma StringToken(c: seq<u8>, p: nat)
    requires p <= |c|
    requires var s := SkipSpace(c, p); s < |c| && c[s] == Quote
    ensures var s := SkipSpace(c, p); var r := Scan(c, p);
      (forall i :: s < i < r.end - 1 ==> c[i] != Quote)
      && (r.result.Ok? <==> exists i :: s < i < |c| && c[i] == Quote)
      && (r.result.Ok? ==> r.result.value.token == String && c[r.end - 1] == Quote && s + 2 <= r.end)
      && (r.result.Err? ==> r.end == |c| && r.result.error == Parse(EndError(Span(c, s, |c|), Some([Quote]))))
  {
    var s := SkipSpace(c, p);
    var q := QuoteAt(c, s + 1);
    if exists i :: s < i < |c| && c[i] == Quote {
      var i :| s < i < |c| && c[i] == Quote;
      assert q <= i;
    }
  }

  /** `//` starts a comment running up to the next newline, which it leaves. */
  lemma CommentToken(c: seq<u8>, p: nat)
    requires p <= |c|
    requires var s := SkipSpace(c, p); s + 1 < |c| && c[s] == 47 && c[s + 1] == 47
    ensures var s := SkipSpace(c, p); var r := Scan(c, p);
      r == Lexed(c, s, r.end, Comment)
      && (forall i :: s + 2 <= i < r.end ==> c[i] != Newline)
      && (r.end < |c| ==> c[r.end] == Newline)
  {
  }

  class Lexer {
    const source: seq<u8>
    var start: nat
    var end: nat

    predicate Valid()
      reads this
    {
      start <= end <= |source|
    }

    constructor (source: seq<u8>)
      ensures this.source == source && start == 0 && end == 0
    {
      this.source := source;
      start := 0;
      end := 0;
    }

    function Peek(): (r: Option<u8>)
      reads this
      ensures r.Some? <==> end < |source|
      ensures r.Some? ==> r.value == source[end]
    {
      if end < |source| then Some(source[end]) else None
    }

    method Advance() returns (r: Option<u8>)
      requires Valid()
      modifies this
      ensures Valid() && r == old(Peek()) && start == old(start)
      ensures end == if r.Some? then old(end) + 1 else old(end)
    {
      r := Peek();
      if r.Some? {
        end := end + 1;
      }
    }

    function CurrentSpan(): Span
      reads this
    {
      Span(source, start, end)
    }

    method Whitespace()
      requires Valid()
      modifies this
      ensures Valid() && start == old(start) && end == SkipSpace(source, old(end))
    {
      while Peek().Some? && IsWhitespace(Peek().value)
        invariant Valid() && start == old(start) && SkipSpace(source, old(end)) == SkipSpace(source, end)
        decreases |source| - end
      {
        var _ := Advance();
      }
    }

    /** A comment: the second slash, then every byte up to the newline. */
    method LineComment() returns (r: Lexeme)
      requires Valid() && end < |source| && source[end] == 47
      modifies this
      ensures Valid() && start == old(start) && end == LineEnd(source, old(end) + 1)
      ensures r == Lexeme(CurrentSpan(), Comment)
    {
      var _ := Advance();
      while Peek().Some? && Peek().value != Newline
        invariant Valid() && start == old(start) && old(end) + 1 <= end
        invariant LineEnd(source, old(end) + 1) == LineEnd(source, end)
        decreases |source| - end
      {
        var _ := Advance();
      }
      r := Lexeme(CurrentSpan(), Comment);
    }

    /** A string: the opening quote, the bytes up to the next quote, and that quote. */
    method StringLiteral() returns (r: Result<Lexeme, CompileError>)
      requires Valid() && start == end && end < |source| && source[end] == Quote
      modifies this
      ensures Valid() && start == old(start)
      ensures LexStep(r, start, end) == (
        var q := QuoteAt(source, old(end) + 1);
        if q == |source| then LexStep(Err(Parse(EndError(Span(source, start, q), Some([Quote])))), start, q)
        else Lexed(source, start, q + 1, String))
    {
      var _ := Advance();
      while true
        invariant Valid() && start == old(start) && old(end) + 1 <= end
        invariant QuoteAt(source, old(end) + 1) == QuoteAt(source, end)
        decreases |source| - end
      {
        var b := Peek();
        if b == Some(Quote) {
          break;
        } else if b.None? {
          return Err(Parse(EndError(CurrentSpan(), Some([Quote]))));
        }
        var _ := Advance();
      }
      var _ := Advance();
      r := Ok(Lexeme(CurrentSpan(), String));
    }

    method NumberLiteral() returns (r: Lexeme)
      requires Valid() && start == end
      modifies this
      ensures Valid() && start == old(start) && end == NumberEnd(source, old(end), false)
      ensures r == Lexeme(CurrentSpan(), Number)
    {
      var hasDecimal := false;
      while true
        invariant Valid() && start == old(start)
        invariant NumberEnd(source, old(end), false) == NumberEnd(source, end, hasDecimal)
        decreases |source| - end
      {
        var b := Peek();
        if b == Some(Period) && !hasDecimal {
          hasDecimal := true;
          var _ := Advance();
        } else if b.Some? && IsDigit(b.value) {
          var _ := Advance();
        } else {
          break;
        }
      }
      r := Lexeme(CurrentSpan(), Number);
    }

    method Identifier() returns (r: Lexeme)
      requires Valid() && start == end
      modifies this
      ensures Valid() && start == old(start) && end == IdentEnd(source, old(end))
      ensures r == Lexeme(CurrentSpan(), Keyword(source[start..end]))
    {
      while Peek().Some? && IsIdentByte(Peek().value)
        invariant Valid() && start == old(start)
        invariant IdentEnd(source, old(end)) == IdentEnd(source, end)
        decreases |source| - end
      {
        var _ := Advance();
      }
      r := Lexeme(CurrentSpan(), Keyword(Content(CurrentSpan())));
    }

    /** `next`: the lexeme after any whitespace, or the error that stopped it. */
    method Next() returns (r: Result<Lexeme, CompileError>)
      requires Valid()
      modifies this
      ensures Valid()
      ensures LexStep(r, start, end) == Scan(source, old(end))
    {
      Whitespace();
      start := end;
      if start >= |source| {
        return Ok(Lexeme(CurrentSpan(), End));
      }
      var b := Peek().value;
      if b == Quote {
        r := StringLiteral();
        return;
      } else if IsDigit(b) {
        var lexeme := NumberLiteral();
        return Ok(lexeme);
      } else if b == Underline || IsAlphabetic(b) {
        var lexeme := Identifier();
        return Ok(lexeme);
      }
      var _ := Advance();
      var next := Peek();
      if b == 47 && next == Some(47) {
        var lexeme := LineComment();
        return Ok(lexeme);
      }
      match Punctuation(b, next)
      case Some((t, width)) =>
        if width == 2 {
          var _ := Advance();
        }
        r := Ok(Lexeme(CurrentSpan(), t));
      case None =>
        r := Err(Parse(CharsError(CurrentSpan(), b, None)));
    }
  }
}
