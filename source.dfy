/**
 * Source text and spans of the oma compiler: a span is a byte range
 * `[start, end)` of one source file's content.
 */
module Source {
  import opened Bytes

  const Newline: u8 := 10

  datatype Span = Span(source: seq<u8>, start: nat, end: nat)

  /** A span that lies inside its source, as the lexer builds them. */
  predicate WithinSource(s: Span) {
    s.start <= s.end <= |s.source|
  }

  /** The smallest range covering both spans, in the left one's source. */
  function Combine(left: Span, right: Span): (r: Span)
    ensures r.source == left.source
    ensures r.start <= left.start && r.start <= right.start && (r.start == left.start || r.start == right.start)
    ensures r.end >= left.end && r.end >= right.end && (r.end == left.end || r.end == right.end)
  {
    Span(left.source, if left.start <= right.start then left.start else right.start,
      if left.end >= right.end then left.end else right.end)
  }

  /** `Span::empty`: nothing, in an empty source. */
  function Empty(): (r: Span)
    ensures WithinSource(r) && r.source == []
  {
    Span([], 0, 0)
  }

  /** The spanned bytes. */
  function Content(s: Span): (r: seq<u8>)
    requires WithinSource(s)
    ensures |r| == Len(s)
    ensures forall i :: 0 <= i < |r| ==> r[i] == s.source[s.start + i]
  {
    s.source[s.start..s.end]
  }

  function Len(s: Span): (r: nat)
    requires s.start <= s.end
    ensures s.start + r == s.end
  {
    s.end - s.start
  }

  /** A span over both spans covers each of them. */
  lemma CombineCovers(left: Span, right: Span)
    requires WithinSource(left) && WithinSource(right) && right.source == left.source
    ensures var c := Combine(left, right);
      WithinSource(c)
      && c.source[left.start..left.end] == Content(left) && c.source[right.start..right.end] == Content(right)
      && Len(c) >= Len(left) && Len(c) >= Len(right)
  {
  }

  // Lines

  /** The number of newlines among the first `p` bytes. */
  function Newlines(c: seq<u8>, p: nat): nat
    requires p <= |c|
  {
    if p == 0 then 0 else Newlines(c, p - 1) + (if c[p - 1] == Newline then 1 else 0)
  }

  /** The position of the first newline at or after `p`, or the end of the text. */
  function LineEnd(c: seq<u8>, p: nat): (r: nat)
    requires p <= |c|
    ensures p <= r <= |c|
    ensures forall i :: p <= i < r ==> c[i] != Newline
    ensures r < |c| ==> c[r] == Newline
    decreases |c| - p
  {
    if p == |c| then p else if c[p] == Newline then p else LineEnd(c, p + 1)
  }

  /** The position just after the last newline before `p`, or 0. */
  function LineStart(c: seq<u8>, p: nat): (r: nat)
    requires p <= |c|
    ensures r <= p
    ensures forall i :: r <= i < p ==> c[i] != Newline
    ensures r == 0 || c[r - 1] == Newline
  {
    if p == 0 then 0 else if c[p - 1] == Newline then p else LineStart(c, p - 1)
  }

  predicate StartsLine(c: seq<u8>, p: nat)
    requires p <= |c|
  {
    p == 0 || c[p - 1] == Newline
  }

  lemma {:induction false} NewlinesFlat(c: seq<u8>, p: nat, q: nat)
    requires p <= q <= |c|
    requires forall i :: p <= i < q ==> c[i] != Newline
    ensures Newlines(c, q) == Newlines(c, p)
    decreases q
  {
    if q > p {
      NewlinesFlat(c, p, q - 1);
    }
  }

  /** Every position from a line start up to its line's end has that line start. */
  lemma {:induction false} LineStartWithin(c: seq<u8>, p: nat, q: nat)
    requires p <= q <= |c| && StartsLine(c, p)
    requires forall i :: p <= i < q ==> c[i] != Newline
    ensures LineStart(c, q) == p
    decreases q
  {
    if q > p {
      LineStartWithin(c, p, q - 1);
    }
  }

  lemma {:induction false} LineEndWithin(c: seq<u8>, p: nat, q: nat)
    requires p <= |c| && p <= q <= LineEnd(c, p)
    ensures LineEnd(c, q) == LineEnd(c, p)
    decreases q - p
  {
    if q > p {
      LineEndWithin(c, p + 1, q);
    }
  }

  /**
   * One turn of the loop over `content.split("\n")`: the line starting at
   * `pos` holds the position `pos + offset` exactly when the offset is at
   * most the line's length; otherwise the next line starts after its newline.
   */
  lemma LineTurn(c: seq<u8>, pos: nat, offset: nat)
    requires pos + offset <= |c| && StartsLine(c, pos)
    ensures offset < LineEnd(c, pos) - pos + 1 ==>
      LineStart(c, pos + offset) == pos && Newlines(c, pos + offset) == Newlines(c, pos)
      && LineEnd(c, pos + offset) == LineEnd(c, pos)
    ensures offset >= LineEnd(c, pos) - pos + 1 ==>
      LineEnd(c, pos) < |c| && StartsLine(c, LineEnd(c, pos) + 1)
      && Newlines(c, LineEnd(c, pos) + 1) == Newlines(c, pos) + 1
  {
    var e := LineEnd(c, pos);
    if offset < e - pos + 1 {
      LineStartWithin(c, pos, pos + offset);
      NewlinesFlat(c, pos, pos + offset);
      LineEndWithin(c, pos, pos + offset);
    } else {
      NewlinesFlat(c, pos, e);
    }
  }

  /** `line`: 1 plus the number of newlines before the span's start. */
  method Line(s: Span) returns (r: nat)
    requires s.start <= |s.source|
    ensures r == 1 + Newlines(s.source, s.start)
  {
    var c := s.source;
    var count := 1;
    var offset: nat := s.start;
    var pos: nat := 0;
    while true
      invariant pos + offset == s.start && StartsLine(c, pos)
      invariant count == 1 + Newlines(c, pos)
      decreases |c| - pos
    {
      var line := c[pos..LineEnd(c, pos)];
      LineTurn(c, pos, offset);
      if offset < |line| + 1 {
        return count;
      }
      count := count + 1;
      offset := offset - (|line| + 1);
      pos := pos + |line| + 1;
    }
  }

  /** `column`: the start's distance from the beginning of its line. */
  method Column(s: Span) returns (r: nat)
    requires s.start <= |s.source|
    ensures r == s.start - LineStart(s.source, s.start)
  {
    var c := s.source;
    var offset: nat := s.start;
    var pos: nat := 0;
    while true
      invariant pos + offset == s.start && StartsLine(c, pos)
      decreases |c| - pos
    {
      var line := c[pos..LineEnd(c, pos)];
      LineTurn(c, pos, offset);
      if offset < |line| + 1 {
        return offset;
      }
      offset := offset - (|line| + 1);
      pos := pos + |line| + 1;
    }
  }

  /** `line_content`: the whole line holding the start, without its newline. */
  method LineContent(s: Span) returns (r: seq<u8>)
    requires s.start <= |s.source|
    ensures r == s.source[LineStart(s.source, s.start)..LineEnd(s.source, s.start)]
  {
    var c := s.source;
    var offset: nat := s.start;
    var pos: nat := 0;
    while true
      invariant pos + offset == s.start && StartsLine(c, pos)
      decreases |c| - pos
    {
      var line := c[pos..LineEnd(c, pos)];
      LineTurn(c, pos, offset);
      if offset < |line| + 1 {
        return c[s.start - offset..s.start - offset + |line|];
      }
      offset := offset - (|line| + 1);
      pos := pos + |line| + 1;
    }
  }

  /**
   * The line holding a position: it has no newline, the position lies in it
   * (at most at its end), and the column counts the bytes before it.
   */
  lemma LineHolds(c: seq<u8>, p: nat)
    requires p <= |c|
    ensures var line := c[LineStart(c, p)..LineEnd(c, p)];
      (forall i :: 0 <= i < |line| ==> line[i] != Newline)
      && p - LineStart(c, p) <= |line|
      && StartsLine(c, LineStart(c, p))
  {
  }

  /** A position right after a newline is column 0 of the next line. */
  lemma {:induction false} AfterNewline(c: seq<u8>, p: nat)
    requires p < |c| && c[p] == Newline
    ensures LineStart(c, p + 1) == p + 1
    ensures Newlines(c, p + 1) == Newlines(c, p) + 1
  {
  }
}
