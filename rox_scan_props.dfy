/**
 * What rox's scanner promises about the tokens it yields: Eof for ever once
 * the text is exhausted, maximal munch for two-byte operators, words,
 * numbers and strings, the error tokens, line counting, and that a token's
 * text is exactly the bytes the call consumed.
 */
module RoxScanProps {
  import opened Wrappers
  import opened Bytes
  import opened Source
  import opened RoxScan

  /** The cursor after n calls of `scan_token`. */
  function After(src: seq<u8>, c: Cursor, n: nat): Cursor
    decreases n
  {
    if n == 0 then c else After(src, Scan(src, c).1, n - 1)
  }

  /** With nothing but whitespace and comments left, the token is Eof, one byte past the end. */
  lemma ScanAtEnd(src: seq<u8>, c: Cursor, w: nat, line: nat)
    requires Skip(src, c.current, c.line) == (w, line) && w >= |src|
    ensures Scan(src, c) == (Token(Eof, line, src, w, 1), Cursor(w, w + 1, line))
  {
    hide Keyword;
  }

  /** After the whitespace and comments, the token is the one starting at the first byte left. */
  lemma ScanAfterSkip(src: seq<u8>, c: Cursor, w: nat, line: nat)
    requires Skip(src, c.current, c.line) == (w, line) && w < |src|
    ensures Scan(src, c) == TokenAt(src, w, line)
  {
    hide Keyword;
  }

  /** A token starting at w is never Eof, takes at least one byte, and any but Error is text of the source. */
  lemma TokenAtFacts(src: seq<u8>, w: nat, line: nat)
    requires w < |src|
    ensures var (t, next) := TokenAt(src, w, line);
      t.ty != Eof && next.start == w && w < next.current <= |src|
      && (t.ty != Error ==> t.source == src && t.start == w && t.start + t.len == next.current)
  {
    hide Keyword;
  }

  /** A token's text can be taken unless it is Eof, and a String token holds both quotes. */
  predicate WellFormed(t: Token) {
    t.ty != Eof ==> t.start + t.len <= |t.source| && (t.ty == String ==> t.len >= 2)
  }

  lemma TokenAtWellFormed(src: seq<u8>, w: nat, line: nat)
    requires w < |src|
    ensures WellFormed(TokenAt(src, w, line).0)
  {
    hide Keyword;
    if src[w] == Quote {
      var run := StringRun(src, w + 1, line);
      hide StringRun;
      assert TokenAt(src, w, line) == StringToken(src, w, line);
    }
  }

  /** Every token `scan_token` yields is well formed. */
  lemma ScanWellFormed(src: seq<u8>, c: Cursor)
    ensures WellFormed(Scan(src, c).0)
  {
    hide Keyword, Scan, TokenAt;
    var skipped := Skip(src, c.current, c.line);
    if skipped.0 >= |src| {
      ScanAtEnd(src, c, skipped.0, skipped.1);
    } else {
      ScanAfterSkip(src, c, skipped.0, skipped.1);
      TokenAtWellFormed(src, skipped.0, skipped.1);
    }
  }

  /** Eof comes exactly when only whitespace and comments are left. */
  lemma EofIffExhausted(src: seq<u8>, c: Cursor)
    ensures Scan(src, c).0.ty == Eof <==> Skip(src, c.current, c.line).0 >= |src|
  {
    hide Scan, TokenAt;
    var skipped := Skip(src, c.current, c.line);
    if skipped.0 >= |src| {
      ScanAtEnd(src, c, skipped.0, skipped.1);
    } else {
      ScanAfterSkip(src, c, skipped.0, skipped.1);
      TokenAtFacts(src, skipped.0, skipped.1);
    }
  }

  /** At the end, a call yields Eof on the same line and stays at the end. */
  lemma EofAtEnd(src: seq<u8>, c: Cursor)
    requires c.current >= |src|
    ensures var (t, next) := Scan(src, c);
      t.ty == Eof && t.line == c.line && next.current >= |src| && next.line == c.line
  {
    hide Keyword;
  }

  /** Once the input is exhausted, every later call yields Eof. */
  lemma {:induction false} EofForever(src: seq<u8>, c: Cursor, n: nat)
    requires c.current >= |src|
    ensures After(src, c, n).current >= |src| && After(src, c, n).line == c.line
    ensures Scan(src, After(src, c, n)).0.ty == Eof
    decreases n
  {
    hide Keyword;
    EofAtEnd(src, c);
    if n > 0 {
      EofForever(src, Scan(src, c).1, n - 1);
    }
  }

  /**
   * A token's text is the bytes the call consumed after skipping: for every
   * token but Eof and Error the range is `[start, current)` of the source,
   * and it holds at least one byte.
   */
  lemma TokenIsConsumedText(src: seq<u8>, c: Cursor)
    requires Scan(src, c).0.ty != Eof && Scan(src, c).0.ty != Error
    ensures var (t, next) := Scan(src, c);
      t.source == src && t.start == next.start == Skip(src, c.current, c.line).0
      && t.start + t.len == next.current <= |src| && t.len >= 1
      && Text(t) == src[next.start..next.current]
  {
    hide Scan, TokenAt;
    var skipped := Skip(src, c.current, c.line);
    if skipped.0 >= |src| {
      ScanAtEnd(src, c, skipped.0, skipped.1);
    } else {
      ScanAfterSkip(src, c, skipped.0, skipped.1);
      TokenAtFacts(src, skipped.0, skipped.1);
    }
  }

  /** How much of the text is left to read. */
  function Remaining(src: seq<u8>, c: Cursor): nat {
    if c.current < |src| then |src| - c.current else 0
  }

  /** Every token but Eof consumes at least one byte; Eof leaves nothing to read. */
  lemma ScanProgress(src: seq<u8>, c: Cursor)
    ensures var (t, next) := Scan(src, c);
      (t.ty != Eof ==> Remaining(src, next) < Remaining(src, c))
      && (t.ty == Eof ==> Remaining(src, next) == 0)
  {
    hide Scan, TokenAt;
    var skipped := Skip(src, c.current, c.line);
    if skipped.0 >= |src| {
      ScanAtEnd(src, c, skipped.0, skipped.1);
    } else {
      ScanAfterSkip(src, c, skipped.0, skipped.1);
      TokenAtFacts(src, skipped.0, skipped.1);
    }
  }

  /** `!`, `=`, `<` and `>` followed by `=` make the two-byte token; alone, the one-byte token. */
  lemma OneOrTwoBytes(src: seq<u8>, c: Cursor, w: nat, line: nat)
    requires Skip(src, c.current, c.line) == (w, line) && w < |src| && OneOrTwo(src[w]).Some?
    ensures var (t, next) := Scan(src, c);
      var two := w + 1 < |src| && src[w + 1] == Equals;
      t.ty == (if two then OneOrTwo(src[w]).value.1 else OneOrTwo(src[w]).value.0)
      && t.start == w && t.len == (if two then 2 else 1) && next.current == w + t.len
  {
    hide Keyword;
    hide Scan;
    ScanAfterSkip(src, c, w, line);
  }

  /** Single punctuation maps one byte to one token. */
  lemma SingleByte(src: seq<u8>, c: Cursor, w: nat, line: nat)
    requires Skip(src, c.current, c.line) == (w, line) && w < |src| && Single(src[w]).Some?
    ensures var (t, next) := Scan(src, c);
      t.ty == Single(src[w]).value && t.start == w && t.len == 1 && next.current == w + 1
  {
    hide Keyword;
    hide Scan;
    ScanAfterSkip(src, c, w, line);
  }

  /**
   * A word starts with a letter or `_` and runs over letters, digits and `_`
   * as far as they go; its type is the keyword it spells exactly, or
   * Identifier.
   */
  lemma WordTokenShape(src: seq<u8>, c: Cursor, w: nat, line: nat)
    requires Skip(src, c.current, c.line) == (w, line) && w < |src| && IsAlpha(src[w])
    ensures var (t, next) := Scan(src, c);
      var e := next.current;
      w < e <= |src| && t.start == w && t.len == e - w
      && (forall i :: w <= i < e ==> IsAlpha(src[i]) || IsDigit(src[i]))
      && (e < |src| ==> !IsAlpha(src[e]) && !IsDigit(src[e]))
      && t.ty == Keyword(src[w..e])
      && (forall k :: IsKeyword(k) && CharsOf(src[w..e]) == Spelling(k) ==> t.ty == k)
  {
    hide Keyword;
    hide Scan;
    ScanAfterSkip(src, c, w, line);
    assert TokenAt(src, w, line) == WordToken(src, w, line);
    var e := IdentEnd(src, w + 1);
    forall k | IsKeyword(k) && CharsOf(src[w..e]) == Spelling(k)
      ensures Keyword(src[w..e]) == k
    {
      KeywordExact(src[w..e], k);
    }
  }

  /**
   * A number is a run of digits, then a `.` and a second run only when a
   * digit follows the `.`: so a dot it holds sits between digits, it holds
   * at most one, and it stops before a `.` only when no digit follows that
   * `.` or it already has one.
   */
  lemma NumberTokenShape(src: seq<u8>, c: Cursor, w: nat, line: nat)
    requires Skip(src, c.current, c.line) == (w, line) && w < |src| && IsDigit(src[w])
    ensures var (t, next) := Scan(src, c);
      var e := next.current;
      w < e <= |src| && t.ty == Number && t.start == w && t.len == e - w
      && (forall i :: w <= i < e ==> IsDigit(src[i]) || (src[i] == Dot_ && w < i && i + 1 < e && IsDigit(src[i + 1])))
      && (forall i, j :: w <= i < j < e && src[i] == Dot_ ==> src[j] != Dot_)
      && (e < |src| ==> !IsDigit(src[e]))
      && (e + 1 < |src| && src[e] == Dot_ && IsDigit(src[e + 1]) ==> exists i :: w < i < e && src[i] == Dot_)
  {
    hide Keyword;
    hide Scan;
    ScanAfterSkip(src, c, w, line);
    assert TokenAt(src, w, line) == Made(src, w, NumberEnd(src, w + 1), line, Number);
    var d := DigitsEnd(src, w + 1);
    if d + 1 < |src| && src[d] == Dot_ && IsDigit(src[d + 1]) {
      var e := DigitsEnd(src, d + 1);
      assert w < d < e && src[d] == Dot_;
    }
  }

  /**
   * A string runs from its quote through the next quote, and the line counter
   * goes up by the newlines inside it; with no closing quote the token is the
   * error "unterminated string" and the cursor is at the end of the text.
   */
  lemma StringTokenShape(src: seq<u8>, c: Cursor, w: nat, line: nat)
    requires Skip(src, c.current, c.line) == (w, line) && w < |src| && src[w] == Quote
    ensures var (t, next) := Scan(src, c);
      var e := next.current;
      w < e <= |src| && (forall i :: w < i < e - 1 ==> src[i] != Quote)
      && ((exists i :: w < i < |src| && src[i] == Quote) <==> t.ty == String)
      && (t.ty == String ==>
            src[e - 1] == Quote && t.start == w && t.len == e - w && w + 2 <= e
            && next.line as int == line + Newlines(src, e) - Newlines(src, w))
      && (t.ty != String ==>
            t == ErrorToken(Ascii("unterminated string"), next.line) && e == |src|
            && next.line as int == line + Newlines(src, e) - Newlines(src, w + 1))
  {
    hide Keyword;
    hide Scan;
    ScanAfterSkip(src, c, w, line);
    assert TokenAt(src, w, line) == StringToken(src, w, line);
    var run := StringRun(src, w + 1, line);
    if exists i :: w < i < |src| && src[i] == Quote {
      var i :| w < i < |src| && src[i] == Quote;
      assert run.0 <= i;
    }
    if run.0 < |src| {
      assert Newlines(src, run.0 + 1) == Newlines(src, run.0);
      assert Newlines(src, w + 1) == Newlines(src, w);
    }
  }

  /** A byte that starts no token gives an Error token carrying the message, and is consumed. */
  lemma UnexpectedByte(src: seq<u8>, c: Cursor, w: nat, line: nat)
    requires Skip(src, c.current, c.line) == (w, line) && w < |src|
    requires Single(src[w]).None? && OneOrTwo(src[w]).None? && src[w] != Quote && !IsDigit(src[w]) && !IsAlpha(src[w])
    ensures var (t, next) := Scan(src, c);
      t == ErrorToken(UnexpectedMessage(src[w]), line) && next.current == w + 1
      && Text(t) == Ascii("unexpected char ") + Latin1Utf8(src[w])
  {
    hide Keyword;
    hide Scan;
    ScanAfterSkip(src, c, w, line);
  }

  /** The line counter is 1 plus the newlines read so far. */
  predicate Counted(src: seq<u8>, c: Cursor) {
    c.line == 1 + Newlines(src, if c.current < |src| then c.current else |src|)
  }

  /** A string token leaves the counter on the line of its closing quote, or of the end. */
  lemma StringCounts(src: seq<u8>, w: nat, line: nat)
    requires w < |src| && src[w] == Quote && line == 1 + Newlines(src, w)
    ensures var (t, next) := StringToken(src, w, line); Counted(src, next) && t.line == next.line
  {
    hide Keyword;
    var run := StringRun(src, w + 1, line);
    assert Newlines(src, w + 1) == Newlines(src, w);
    if run.0 < |src| {
      assert Newlines(src, run.0 + 1) == Newlines(src, run.0);
    }
  }

  /** A token ending at e, with no newline from w to e, leaves the counter on the line it started on. */
  lemma FlatCounts(src: seq<u8>, w: nat, e: nat, line: nat)
    requires w < e <= |src| && line == 1 + Newlines(src, w)
    requires forall i :: w <= i < e ==> src[i] != Newline
    ensures Counted(src, Cursor(w, e, line))
  {
    NewlinesFlat(src, w, e);
  }

  /** A token starting at w, on the line of byte w, leaves the counter on the line of its last byte. */
  lemma TokenAtCounts(src: seq<u8>, w: nat, line: nat)
    requires w < |src| && line == 1 + Newlines(src, w) && src[w] != Newline
    ensures var (t, next) := TokenAt(src, w, line); Counted(src, next) && t.line == next.line
  {
    hide Keyword, StringToken, Newlines;
    var b := src[w];
    if Single(b).Some? {
      FlatCounts(src, w, w + 1, line);
    } else if OneOrTwo(b).Some? {
      if w + 1 < |src| && src[w + 1] == Equals {
        FlatCounts(src, w, w + 2, line);
      } else {
        FlatCounts(src, w, w + 1, line);
      }
    } else if b == Quote {
      StringCounts(src, w, line);
    } else if IsDigit(b) {
      FlatCounts(src, w, NumberEnd(src, w + 1), line);
    } else if IsAlpha(b) {
      FlatCounts(src, w, IdentEnd(src, w + 1), line);
    } else {
      FlatCounts(src, w, w + 1, line);
    }
  }

  /**
   * Every call keeps the line counter equal to 1 plus the newlines read, in
   * whitespace, comments and strings alike, and a token carries the line its
   * last byte is on.
   */
  lemma ScanCounts(src: seq<u8>, c: Cursor)
    requires Counted(src, c)
    ensures var (t, next) := Scan(src, c); Counted(src, next) && t.line == next.line
  {
    hide Scan, TokenAt;
    var skipped := Skip(src, c.current, c.line);
    if skipped.0 >= |src| {
      ScanAtEnd(src, c, skipped.0, skipped.1);
    } else {
      ScanAfterSkip(src, c, skipped.0, skipped.1);
      TokenAtCounts(src, skipped.0, skipped.1);
    }
  }

  /** A new scanner's cursor counts lines. */
  lemma StartCounted(src: seq<u8>)
    ensures Counted(src, Cursor(0, 0, 1))
  {
    hide Keyword;
  }
}
