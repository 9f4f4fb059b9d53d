/**
 * shu's loader for the binary container: a cursor over the input bytes that
 * every read advances. The pure functions below say what each reader
 * produces from a given position; the `Parser` methods are proved to follow
 * them, and the round trip against the compiler's serialiser is proved on
 * the functions.
 */
module ContainerParse {
  import opened Wrappers
  import opened Bytes
  import opened ShuChunk
  import opened Container
  import opened ContainerEmit

  /**
   * ParseError is the source's error value. Unimplemented is the panic of
   * `unimplemented!()` on an info section; Overflow is the panic of
   * `current + len` exceeding usize on a declared length near 2^64.
   */
  datatype Failure = ParseError | Unimplemented | Overflow

  /** What a reader yields from a position: a value and the position after it. */
  type Parsed<T> = Result<(T, nat), Failure>

  /** Prepend already decoded items to a list reader's result. */
  function Join<T>(acc: seq<T>, r: Parsed<seq<T>>): Parsed<seq<T>> {
    match r
    case Ok((items, p)) => Ok((acc + items, p))
    case Err(e) => Err(e)
  }

  /** `advance::<8>` followed by `u64::from_le_bytes`. */
  function WordAt(bytes: seq<u8>, pos: nat): (r: Parsed<nat>)
    ensures r.Ok? <==> pos + 8 <= |bytes|
    ensures r.Ok? ==> r.value.1 == pos + 8
  {
    if pos + 8 <= |bytes| then Ok((FromLE(bytes[pos..pos + 8]), pos + 8))
    else Err(ParseError)
  }

  /** A word read is a u64 whose little-endian encoding is the bytes read. */
  lemma WordAtValue(bytes: seq<u8>, pos: nat)
    requires pos + 8 <= |bytes|
    ensures IsU64(WordAt(bytes, pos).value.0)
    ensures LE(WordAt(bytes, pos).value.0, 8) == bytes[pos..pos + 8]
  {
    Pow256Widths();
    LEOfFromLE(bytes[pos..pos + 8]);
    FromLEBound(bytes[pos..pos + 8]);
  }

  /** `expect`: the next bytes must be present and equal to the expected ones. */
  function ExpectAt(bytes: seq<u8>, pos: nat, expected: seq<u8>): (r: Result<nat, Failure>)
    ensures r.Ok? <==> pos + |expected| <= |bytes| && bytes[pos..pos + |expected|] == expected
    ensures r.Ok? ==> r.value == pos + |expected|
    ensures r.Err? ==> r.error == ParseError
  {
    if pos + |expected| <= |bytes| && bytes[pos..pos + |expected|] == expected then Ok(pos + |expected|)
    else Err(ParseError)
  }

  /** The n bytes at pos, with `current + len` overflowing first when the sum passes usize. */
  function BytesAt(bytes: seq<u8>, pos: nat, len: nat): (r: Parsed<seq<u8>>)
    ensures r.Ok? <==> pos + len < U64_LIMIT && pos + len <= |bytes|
    ensures r.Ok? ==> r.value == (bytes[pos..pos + len], pos + len)
    ensures r.Err? ==> r.error == (if pos + len >= U64_LIMIT then Overflow else ParseError)
  {
    if pos + len >= U64_LIMIT then Err(Overflow)
    else if pos + len <= |bytes| then Ok((bytes[pos..pos + len], pos + len))
    else Err(ParseError)
  }

  /** `parse`: the magic bytes, then one function record; whatever follows it is ignored. */
  function ParseBytes(bytes: seq<u8>): (r: Result<Function, Failure>)
    ensures r.Ok? ==> |bytes| >= 4 && bytes[..4] == MAGIC
  {
    var p := ExpectAt(bytes, 0, MAGIC);
    if p.Err? then Err(p.error) else
    var f := FunctionAt(bytes, p.value);
    if f.Err? then Err(f.error) else Ok(f.value.0)
  }

  /** `function`: arity, chunk, locals, upvalue count and the upvalue descriptors. */
  function FunctionAt(bytes: seq<u8>, pos: nat): (r: Parsed<Function>)
    requires pos <= |bytes|
    ensures r.Ok? ==> pos < r.value.1 <= |bytes|
    decreases |bytes| - pos, 5, 0
  {
    var arity := WordAt(bytes, pos);
    if arity.Err? then Err(arity.error) else
    var chunk := ChunkAt(bytes, arity.value.1);
    if chunk.Err? then Err(chunk.error) else
    var locals := WordAt(bytes, chunk.value.1);
    if locals.Err? then Err(locals.error) else
    var count := WordAt(bytes, locals.value.1);
    if count.Err? then Err(count.error) else
    var ups := UpvaluesAt(bytes, count.value.1, count.value.0);
    if ups.Err? then Err(ups.error) else
    Ok((Function(arity.value.0, chunk.value.0, locals.value.0, ups.value.0), ups.value.1))
  }

  /** `chunk`: an info marker is unimplemented; otherwise the data then the code section. */
  function ChunkAt(bytes: seq<u8>, pos: nat): (r: Parsed<Chunk>)
    requires pos <= |bytes|
    ensures r.Ok? ==> pos < r.value.1 <= |bytes|
    decreases |bytes| - pos, 4, 0
  {
    if pos + 1 > |bytes| then Err(ParseError)
    else if bytes[pos] == SECTION_INFO then Err(Unimplemented)
    else
      var data := DataAt(bytes, pos);
      if data.Err? then Err(data.error) else
      var code := CodeAt(bytes, data.value.1);
      if code.Err? then Err(code.error) else
      Ok((Chunk(data.value.0, code.value.0), code.value.1))
  }

  /** `data`: the data marker, a count, then exactly that many constants. */
  function DataAt(bytes: seq<u8>, pos: nat): (r: Parsed<seq<Constant>>)
    requires pos <= |bytes|
    ensures r.Ok? ==> pos < r.value.1 <= |bytes|
    decreases |bytes| - pos, 3, 0
  {
    var p1 := ExpectAt(bytes, pos, [SECTION_DATA]);
    if p1.Err? then Err(p1.error) else
    var count := WordAt(bytes, p1.value);
    if count.Err? then Err(count.error) else
    ConstantsAt(bytes, count.value.1, count.value.0)
  }

  /** count constants in a row; the first failure ends the list. */
  function ConstantsAt(bytes: seq<u8>, pos: nat, count: nat): (r: Parsed<seq<Constant>>)
    requires pos <= |bytes|
    ensures r.Ok? ==> pos <= r.value.1 <= |bytes| && |r.value.0| == count
    decreases |bytes| - pos, 2, count
  {
    if count == 0 then Ok(([], pos))
    else
      var c := ConstantAt(bytes, pos);
      if c.Err? then Err(c.error) else
      Join([c.value.0], ConstantsAt(bytes, c.value.1, count - 1))
  }

  /** `constant`: dispatch on the tag byte, 1 for a string and 2 for a function. */
  function ConstantAt(bytes: seq<u8>, pos: nat): (r: Parsed<Constant>)
    requires pos <= |bytes|
    ensures r.Ok? ==> pos < r.value.1 <= |bytes|
    decreases |bytes| - pos, 1, 0
  {
    if pos + 1 > |bytes| then Err(ParseError)
    else if bytes[pos] == CONSTANT_STR then ConstantStringAt(bytes, pos)
    else if bytes[pos] == CONSTANT_FUN then ConstantFunctionAt(bytes, pos)
    else Err(ParseError)
  }

  /** `constant_string`: marker, byte length, then that many bytes of valid UTF-8. */
  function ConstantStringAt(bytes: seq<u8>, pos: nat): (r: Parsed<Constant>)
    requires pos <= |bytes|
    ensures r.Ok? ==> pos < r.value.1 <= |bytes| && r.value.0.Text? && ValidUtf8(r.value.0.text)
  {
    var p1 := ExpectAt(bytes, pos, [CONSTANT_STR]);
    if p1.Err? then Err(p1.error) else
    var len := WordAt(bytes, p1.value);
    if len.Err? then Err(len.error) else
    var s := BytesAt(bytes, len.value.1, len.value.0);
    if s.Err? then Err(s.error) else
    if ValidUtf8(s.value.0) then Ok((Text(s.value.0), s.value.1)) else Err(ParseError)
  }

  /** `constant_function`: marker, then a nested function record. */
  function ConstantFunctionAt(bytes: seq<u8>, pos: nat): (r: Parsed<Constant>)
    requires pos <= |bytes|
    ensures r.Ok? ==> pos < r.value.1 <= |bytes| && r.value.0.Fun?
    decreases |bytes| - pos, 0, 0
  {
    var p1 := ExpectAt(bytes, pos, [CONSTANT_FUN]);
    if p1.Err? then Err(p1.error) else
    var f := FunctionAt(bytes, p1.value);
    if f.Err? then Err(f.error) else
    Ok((Fun(f.value.0), f.value.1))
  }

  /** `code`: marker, byte length, then that many raw code bytes. */
  function CodeAt(bytes: seq<u8>, pos: nat): (r: Parsed<seq<u8>>)
    requires pos <= |bytes|
    ensures r.Ok? ==> pos < r.value.1 <= |bytes|
    ensures r.Ok? ==> r.value.1 == pos + 9 + |r.value.0| && pos + 9 <= |bytes|
    ensures r.Ok? ==> bytes[pos] == SECTION_CODE && r.value.0 == bytes[pos + 9..r.value.1]
  {
    var p1 := ExpectAt(bytes, pos, [SECTION_CODE]);
    if p1.Err? then Err(p1.error) else
    var len := WordAt(bytes, p1.value);
    if len.Err? then Err(len.error) else
    BytesAt(bytes, len.value.1, len.value.0)
  }

  /** count upvalue descriptors in a row. */
  function UpvaluesAt(bytes: seq<u8>, pos: nat, count: nat): (r: Parsed<seq<UpvalueDesc>>)
    requires pos <= |bytes|
    ensures r.Ok? ==> r.value.1 == pos + 9 * count <= |bytes| && |r.value.0| == count
    decreases count
  {
    if count == 0 then Ok(([], pos))
    else
      var u := UpvalueAt(bytes, pos);
      if u.Err? then Err(u.error) else
      Join([u.value.0], UpvaluesAt(bytes, u.value.1, count - 1))
  }

  /** One descriptor: a u64 index and a flag byte that must be exactly 0 or 1. */
  function UpvalueAt(bytes: seq<u8>, pos: nat): (r: Parsed<UpvalueDesc>)
    requires pos <= |bytes|
    ensures r.Ok? <==> pos + 9 <= |bytes| && bytes[pos + 8] in {0, 1}
    ensures r.Ok? ==> r.value.1 == pos + 9 && r.value.0.isLocal == (bytes[pos + 8] == 1)
  {
    var index := WordAt(bytes, pos);
    if index.Err? then Err(index.error) else
    var p1 := index.value.1;
    if p1 + 1 > |bytes| then Err(ParseError)
    else if bytes[p1] == 0 then Ok((UpvalueDesc(index.value.0, false), p1 + 1))
    else if bytes[p1] == 1 then Ok((UpvalueDesc(index.value.0, true), p1 + 1))
    else Err(ParseError)
  }

  // Round trip: reading back what the compiler wrote.

  /**
   * x occurs in b at position p, stated byte by byte so that a fact about
   * one part of an encoding does not bring the rest of it into a proof.
   */
  predicate At(b: seq<u8>, p: nat, x: seq<u8>)
    decreases |x|
  {
    if x == [] then p <= |b| else p < |b| && b[p] == x[0] && At(b, p + 1, x[1..])
  }

  lemma {:induction false} AtSlice(b: seq<u8>, p: nat, x: seq<u8>)
    ensures At(b, p, x) <==> p + |x| <= |b| && b[p..p + |x|] == x
    decreases |x|
  {
    if x != [] {
      AtSlice(b, p + 1, x[1..]);
      if p + |x| <= |b| {
        var s := b[p..p + |x|];
        assert s[0] == b[p] && s[1..] == b[p + 1..p + |x|];
        if s == x {
          assert s[1..] == x[1..];
        }
        if b[p] == x[0] && At(b, p + 1, x[1..]) {
          assert s == [s[0]] + s[1..] && x == [x[0]] + x[1..];
        }
      }
    }
  }

  /** What each reader yields from p, named so that one read is one fact. */
  predicate ReadsWord(b: seq<u8>, p: nat, v: nat) {
    p + 8 <= |b| && WordAt(b, p) == Ok((v, p + 8))
  }

  predicate ReadsUpvalues(b: seq<u8>, p: nat, us: seq<UpvalueDesc>, q: nat) {
    p <= |b| && UpvaluesAt(b, p, |us|) == Ok((us, q))
  }

  predicate ReadsFunction(b: seq<u8>, p: nat, f: Function, q: nat) {
    p <= |b| && FunctionAt(b, p) == Ok((f, q))
  }

  predicate ReadsChunk(b: seq<u8>, p: nat, c: Chunk, q: nat) {
    p <= |b| && ChunkAt(b, p) == Ok((c, q))
  }

  predicate ReadsCode(b: seq<u8>, p: nat, code: seq<u8>, q: nat) {
    p <= |b| && CodeAt(b, p) == Ok((code, q))
  }

  predicate ReadsData(b: seq<u8>, p: nat, cs: seq<Constant>, q: nat) {
    p <= |b| && DataAt(b, p) == Ok((cs, q))
  }

  predicate ReadsConstants(b: seq<u8>, p: nat, cs: seq<Constant>, q: nat) {
    p <= |b| && ConstantsAt(b, p, |cs|) == Ok((cs, q))
  }

  predicate ReadsConstant(b: seq<u8>, p: nat, c: Constant, q: nat) {
    p <= |b| && ConstantAt(b, p) == Ok((c, q))
  }

  lemma {:induction false} Split(b: seq<u8>, p: nat, x: seq<u8>, y: seq<u8>, q: nat)
    requires At(b, p, x + y) && q == p + |x|
    ensures At(b, p, x) && At(b, q, y)
    decreases |x|
  {
    if x == [] {
      assert x + y == y;
    } else {
      assert (x + y)[0] == x[0] && (x + y)[1..] == x[1..] + y;
      Split(b, p + 1, x[1..], y, q);
    }
  }

  lemma Marker(b: seq<u8>, p: nat, m: u8)
    requires At(b, p, [m])
    ensures p < |b| && b[p] == m
  {
  }

  lemma WordRoundTrip(b: seq<u8>, p: nat, v: nat)
    requires IsU64(v) && At(b, p, LE(v, 8))
    ensures ReadsWord(b, p, v)
  {
    AtSlice(b, p, LE(v, 8));
    Pow256Widths();
    FromLEOfLESmall(v, 8);
  }

  /** How `UpvaluesAt` prepends one descriptor to the rest. */
  lemma UpvaluesCons(b: seq<u8>, p: nat, u: UpvalueDesc, us: seq<UpvalueDesc>, q: nat)
    requires p + 9 <= |b| && UpvalueAt(b, p) == Ok((u, p + 9))
    requires ReadsUpvalues(b, p + 9, us, q)
    ensures ReadsUpvalues(b, p, [u] + us, q)
  {
    assert ([u] + us)[1..] == us;
  }

  lemma {:induction false} UpvaluesRoundTrip(b: seq<u8>, p: nat, us: seq<UpvalueDesc>, q: nat)
    requires forall u | u in us :: IsU64(u.index)
    requires At(b, p, EmitUpvalues(us)) && q == p + |EmitUpvalues(us)|
    ensures ReadsUpvalues(b, p, us, q)
    decreases us
  {
    if us != [] {
      var u, rest := us[0], us[1..];
      var p8, p9 := p + 8, p + 9;
      Split(b, p, EmitUpvalue(u), EmitUpvalues(rest), p9);
      Split(b, p, LE(u.index, 8), [if u.isLocal then 1 else 0], p8);
      WordRoundTrip(b, p, u.index);
      assert UpvalueAt(b, p) == Ok((u, p9));
      UpvaluesRoundTrip(b, p9, rest, q);
      UpvaluesCons(b, p, u, rest, q);
      assert [u] + rest == us;
    }
  }

  /** How `FunctionAt` assembles a record from its five successful reads. */
  lemma FunctionAtOk(b: seq<u8>, p: nat, f: Function, p1: nat, p2: nat, p3: nat, p4: nat, q: nat)
    requires p1 == p + 8 && p3 == p2 + 8 && p4 == p3 + 8
    requires ReadsWord(b, p, f.arity)
    requires ReadsChunk(b, p1, f.chunk, p2)
    requires ReadsWord(b, p2, f.locals)
    requires ReadsWord(b, p3, |f.upvalues|)
    requires ReadsUpvalues(b, p4, f.upvalues, q)
    ensures ReadsFunction(b, p, f, q)
  {
  }

  /** Where each field of a function record lies within its encoding. */
  lemma FunctionLayout(b: seq<u8>, p: nat, f: Function, p1: nat, p2: nat, p3: nat, p4: nat, q: nat)
    requires At(b, p, EmitFunction(f))
    requires p1 == p + 8 && p2 == p1 + |EmitChunk(f.chunk)| && p3 == p2 + 8 && p4 == p3 + 8
    requires q == p4 + |EmitUpvalues(f.upvalues)|
    ensures At(b, p, LE(f.arity, 8))
    ensures At(b, p1, EmitChunk(f.chunk))
    ensures At(b, p2, LE(f.locals, 8))
    ensures At(b, p3, LE(|f.upvalues|, 8))
    ensures At(b, p4, EmitUpvalues(f.upvalues))
    ensures q == p + |EmitFunction(f)|
  {
    var A, C, L, N, U := LE(f.arity, 8), EmitChunk(f.chunk), LE(f.locals, 8), LE(|f.upvalues|, 8), EmitUpvalues(f.upvalues);
    assert EmitFunction(f) == A + C + L + N + U;
    Split(b, p, A + C + L + N, U, p4);
    Split(b, p, A + C + L, N, p3);
    Split(b, p, A + C, L, p2);
    Split(b, p, A, C, p1);
  }

  lemma {:induction false} FunctionRoundTrip(b: seq<u8>, p: nat, f: Function, q: nat)
    requires FunctionFits(f) && |b| < U64_LIMIT
    requires At(b, p, EmitFunction(f)) && q == p + |EmitFunction(f)|
    ensures ReadsFunction(b, p, f, q)
    decreases f, 1
  {
    var p1 := p + 8;
    var p2 := p1 + |EmitChunk(f.chunk)|;
    var p3, p4 := p2 + 8, p2 + 16;
    FunctionLayout(b, p, f, p1, p2, p3, p4, q);
    WordRoundTrip(b, p, f.arity);
    ChunkRoundTrip(b, p1, f.chunk, p2);
    WordRoundTrip(b, p2, f.locals);
    WordRoundTrip(b, p3, |f.upvalues|);
    UpvaluesRoundTrip(b, p4, f.upvalues, q);
    FunctionAtOk(b, p, f, p1, p2, p3, p4, q);
  }

  /** How `ChunkAt` assembles a chunk from its data and code sections. */
  lemma ChunkAtOk(b: seq<u8>, p: nat, c: Chunk, p1: nat, q: nat)
    requires p < |b| && b[p] == SECTION_DATA
    requires ReadsData(b, p, c.data, p1)
    requires ReadsCode(b, p1, c.code, q)
    ensures ReadsChunk(b, p, c, q)
  {
  }

  lemma CodeRoundTrip(b: seq<u8>, p: nat, code: seq<u8>, q: nat)
    requires IsU64(|code|) && |b| < U64_LIMIT
    requires At(b, p, [SECTION_CODE] + LE(|code|, 8) + code) && q == p + 9 + |code|
    ensures ReadsCode(b, p, code, q)
  {
    var p1, p9 := p + 1, p + 9;
    Split(b, p, [SECTION_CODE] + LE(|code|, 8), code, p9);
    Split(b, p, [SECTION_CODE], LE(|code|, 8), p1);
    WordRoundTrip(b, p1, |code|);
    AtSlice(b, p9, code);
  }

  lemma {:induction false} ChunkRoundTrip(b: seq<u8>, p: nat, c: Chunk, q: nat)
    requires ChunkFits(c) && |b| < U64_LIMIT
    requires At(b, p, EmitChunk(c)) && q == p + |EmitChunk(c)|
    ensures ReadsChunk(b, p, c, q)
    decreases c, 3
  {
    var D, K := EmitData(c.data), [SECTION_CODE] + LE(|c.code|, 8) + c.code;
    var p1 := p + |D|;
    assert EmitChunk(c) == D + K;
    Split(b, p, D, K, p1);
    DataRoundTrip(b, p, c.data, p1);
    CodeRoundTrip(b, p1, c.code, q);
    ChunkAtOk(b, p, c, p1, q);
  }

  /** How `DataAt` reads the marker, the count and the constants. */
  lemma DataAtOk(b: seq<u8>, p: nat, cs: seq<Constant>, p1: nat, p9: nat, q: nat)
    requires p1 == p + 1 && p9 == p + 9
    requires p < |b| && b[p] == SECTION_DATA
    requires ReadsWord(b, p1, |cs|)
    requires ReadsConstants(b, p9, cs, q)
    ensures ReadsData(b, p, cs, q)
  {
    assert b[p..p1] == [SECTION_DATA];
  }

  lemma {:induction false} DataRoundTrip(b: seq<u8>, p: nat, cs: seq<Constant>, q: nat)
    requires IsU64(|cs|) && ConstantsFit(cs) && |b| < U64_LIMIT
    requires At(b, p, EmitData(cs)) && q == p + |EmitData(cs)|
    ensures p < |b| && b[p] == SECTION_DATA
    ensures ReadsData(b, p, cs, q)
    decreases cs, 2
  {
    var p1, p9 := p + 1, p + 9;
    Split(b, p, [SECTION_DATA] + LE(|cs|, 8), EmitConstants(cs), p9);
    Split(b, p, [SECTION_DATA], LE(|cs|, 8), p1);
    Marker(b, p, SECTION_DATA);
    WordRoundTrip(b, p1, |cs|);
    ConstantsRoundTrip(b, p9, cs, q);
    DataAtOk(b, p, cs, p1, p9, q);
  }

  /** How `ConstantsAt` prepends one constant to the rest. */
  lemma ConstantsCons(b: seq<u8>, p: nat, c: Constant, cs: seq<Constant>, p1: nat, q: nat)
    requires ReadsConstant(b, p, c, p1)
    requires ReadsConstants(b, p1, cs, q)
    ensures ReadsConstants(b, p, [c] + cs, q)
  {
    assert ([c] + cs)[1..] == cs;
  }

  lemma {:induction false} ConstantsRoundTrip(b: seq<u8>, p: nat, cs: seq<Constant>, q: nat)
    requires ConstantsFit(cs) && |b| < U64_LIMIT
    requires At(b, p, EmitConstants(cs)) && q == p + |EmitConstants(cs)|
    ensures ReadsConstants(b, p, cs, q)
    decreases cs, 1
  {
    if cs != [] {
      var head, rest := cs[0], cs[1..];
      var H := EmitConstant(head);
      var p1 := p + |H|;
      assert EmitConstants(cs) == H + EmitConstants(rest);
      Split(b, p, H, EmitConstants(rest), p1);
      assert ConstantFits(head);
      ConstantRoundTrip(b, p, head, p1);
      assert ConstantsFit(rest) by {
        forall i | 0 <= i < |rest| ensures ConstantFits(rest[i]) {
          assert rest[i] == cs[i + 1];
        }
      }
      ConstantsRoundTrip(b, p1, rest, q);
      ConstantsCons(b, p, head, rest, p1, q);
      assert [head] + rest == cs;
    }
  }

  lemma {:induction false} ConstantRoundTrip(b: seq<u8>, p: nat, c: Constant, q: nat)
    requires ConstantFits(c) && |b| < U64_LIMIT
    requires At(b, p, EmitConstant(c)) && q == p + |EmitConstant(c)|
    ensures ReadsConstant(b, p, c, q)
    decreases c, 0
  {
    match c
    case Text(s) =>
      StringRoundTrip(b, p, s, q);
    case Fun(f) =>
      FunctionConstantRoundTrip(b, p, f, q);
  }

  lemma StringRoundTrip(b: seq<u8>, p: nat, s: seq<u8>, q: nat)
    requires IsU64(|s|) && ValidUtf8(s) && |b| < U64_LIMIT
    requires At(b, p, [CONSTANT_STR] + LE(|s|, 8) + s) && q == p + 9 + |s|
    ensures ReadsConstant(b, p, Text(s), q)
  {
    var L := LE(|s|, 8);
    var p1, p9 := p + 1, p + 9;
    Split(b, p, [CONSTANT_STR] + L, s, p9);
    Split(b, p, [CONSTANT_STR], L, p1);
    Marker(b, p, CONSTANT_STR);
    WordRoundTrip(b, p1, |s|);
    AtSlice(b, p9, s);
    assert BytesAt(b, p9, |s|) == Ok((s, q));
    assert ConstantStringAt(b, p) == Ok((Text(s), q));
  }

  lemma {:induction false} FunctionConstantRoundTrip(b: seq<u8>, p: nat, f: Function, q: nat)
    requires FunctionFits(f) && |b| < U64_LIMIT
    requires At(b, p, [CONSTANT_FUN] + EmitFunction(f)) && q == p + 1 + |EmitFunction(f)|
    ensures ReadsConstant(b, p, Fun(f), q)
    decreases f, 2
  {
    var p1 := p + 1;
    Split(b, p, [CONSTANT_FUN], EmitFunction(f), p1);
    Marker(b, p, CONSTANT_FUN);
    FunctionRoundTrip(b, p1, f, q);
    FunctionConstantAt(b, p, f, p1, q);
  }

  /** How `ConstantAt` dispatches a function marker. */
  lemma FunctionConstantAt(b: seq<u8>, p: nat, f: Function, p1: nat, q: nat)
    requires p1 == p + 1
    requires p < |b| && b[p] == CONSTANT_FUN && ReadsFunction(b, p1, f, q)
    ensures ReadsConstant(b, p, Fun(f), q)
  {
    assert b[p..p1] == [CONSTANT_FUN];
    assert ConstantFunctionAt(b, p) == Ok((Fun(f), q));
  }

  /**
   * Loading what the compiler emitted gives back the same function (arity,
   * locals, upvalues, constants and code), whatever bytes follow it.
   */
  lemma {:induction false} RoundTrip(f: Function, trailing: seq<u8>)
    requires FunctionFits(f)
    requires |Emit(f) + trailing| < U64_LIMIT
    ensures ParseBytes(Emit(f) + trailing) == Ok(f)
  {
    var b := Emit(f) + trailing;
    var p: nat, q: nat := 4, |Emit(f)|;
    AtSlice(b, 0, b);
    Split(b, 0, Emit(f), trailing, q);
    Split(b, 0, MAGIC, EmitFunction(f), p);
    FunctionRoundTrip(b, p, f, q);
  }

  /** Anything that does not start with the magic bytes is rejected. */
  lemma BadMagicRejected(bytes: seq<u8>)
    requires |bytes| < 4 || bytes[..4] != MAGIC
    ensures ParseBytes(bytes) == Err(ParseError)
  {
  }

  /** A chunk that opens with the info marker reaches the unimplemented path. */
  lemma InfoSectionUnimplemented(bytes: seq<u8>, pos: nat)
    requires pos < |bytes| && bytes[pos] == SECTION_INFO
    ensures ChunkAt(bytes, pos) == Err(Unimplemented)
  {
  }
}
