/**
 * shu's `Parser`: the input bytes and a cursor that every successful read
 * advances. Each method is proved to produce what the reader function of the
 * same name in `ContainerParse` states for the cursor it starts from, and to
 * leave the cursor where that function says the read ends.
 */
module ContainerParser {
  import opened Wrappers
  import opened Bytes
  import opened ShuChunk
  import opened Container
  import opened ContainerParse

  /** A method's result paired with the cursor it left, in the shape the reader functions use. */
  function Outcome<T>(r: Result<T, Failure>, pos: nat): Parsed<T> {
    match r
    case Ok(v) => Ok((v, pos))
    case Err(e) => Err(e)
  }

  /** Prepending in two steps is prepending the concatenation. */
  lemma JoinJoin<T>(acc: seq<T>, x: T, r: Parsed<seq<T>>)
    ensures Join(acc, Join([x], r)) == Join(acc + [x], r)
  {
    match r
    case Ok((items, p)) =>
      assert acc + ([x] + items) == (acc + [x]) + items;
    case Err(_) =>
  }

  lemma JoinNil<T>(r: Parsed<seq<T>>)
    ensures Join([], r) == r
  {
    match r
    case Ok((items, p)) =>
      assert [] + items == items;
    case Err(_) =>
  }

  class Parser {
    const bytes: seq<u8>
    var current: nat

    constructor (bytes: seq<u8>)
      ensures this.bytes == bytes && current == 0
    {
      this.bytes := bytes;
      current := 0;
    }

    /** `parse`: the magic bytes, then the top-level function; what follows is not read. */
    method Parse() returns (r: Result<Function, Failure>)
      requires current == 0
      modifies this
      ensures r == ParseBytes(bytes)
    {
      var m := Expect(MAGIC);
      if m.Err? {
        return Err(m.error);
      }
      var f := ParseFunction();
      r := f;
    }

    /** `peek`: the next n bytes, without moving the cursor. */
    method Peek(n: nat) returns (r: Result<seq<u8>, Failure>)
      requires current <= |bytes|
      ensures r.Ok? <==> current + n <= |bytes|
      ensures r.Ok? ==> r.value == bytes[current..current + n]
      ensures r.Err? ==> r.error == ParseError
    {
      if current + n <= |bytes| {
        r := Ok(bytes[current..current + n]);
      } else {
        r := Err(ParseError);
      }
    }

    /** `advance`: the next n bytes, moving the cursor past them. */
    method Advance(n: nat) returns (r: Result<seq<u8>, Failure>)
      requires current <= |bytes|
      modifies this
      ensures r.Ok? <==> old(current) + n <= |bytes|
      ensures r.Ok? ==> r.value == bytes[old(current)..old(current) + n] && current == old(current) + n
      ensures r.Err? ==> r.error == ParseError && current == old(current)
    {
      r := Peek(n);
      if r.Ok? {
        current := current + n;
      }
    }

    /** `expect`: the next bytes must be present and equal to the expected ones. */
    method Expect(expected: seq<u8>) returns (r: Result<seq<u8>, Failure>)
      requires current <= |bytes|
      modifies this
      ensures current <= |bytes|
      ensures r.Ok? <==> ExpectAt(bytes, old(current), expected).Ok?
      ensures r.Ok? ==> r.value == expected && current == ExpectAt(bytes, old(current), expected).value
      ensures r.Err? ==> r.error == ParseError
    {
      var got := Advance(|expected|);
      if got.Err? {
        return Err(got.error);
      }
      if got.value == expected {
        r := Ok(got.value);
      } else {
        r := Err(ParseError);
      }
    }

    /** `u64::from_le_bytes(self.advance::<8>()?)`. */
    method Word() returns (r: Result<nat, Failure>)
      requires current <= |bytes|
      modifies this
      ensures current <= |bytes|
      ensures Outcome(r, current) == WordAt(bytes, old(current))
    {
      var got := Advance(8);
      if got.Err? {
        return Err(got.error);
      }
      r := Ok(FromLE(got.value));
    }

    /** The next len bytes, with the cursor moved past them; `current + len` past usize panics. */
    method Take(len: nat) returns (r: Result<seq<u8>, Failure>)
      requires current <= |bytes|
      modifies this
      ensures current <= |bytes|
      ensures Outcome(r, current) == BytesAt(bytes, old(current), len)
    {
      if current + len >= U64_LIMIT {
        return Err(Overflow);
      }
      r := Advance(len);
    }

    /** `function`: arity, chunk, locals, the upvalue count and that many descriptors. */
    method ParseFunction() returns (r: Result<Function, Failure>)
      requires current <= |bytes|
      modifies this
      ensures current <= |bytes|
      ensures Outcome(r, current) == FunctionAt(bytes, old(current))
      decreases |bytes| - current, 5
    {
      var arity := Word();
      if arity.Err? {
        return Err(arity.error);
      }
      var chunk := ParseChunk();
      if chunk.Err? {
        return Err(chunk.error);
      }
      var locals := Word();
      if locals.Err? {
        return Err(locals.error);
      }
      var count := Word();
      if count.Err? {
        return Err(count.error);
      }
      var ups := ParseUpvalues(count.value);
      if ups.Err? {
        return Err(ups.error);
      }
      r := Ok(ShuChunk.Function(arity.value, chunk.value, locals.value, ups.value));
    }

    /** The `(0..upvalues_len)` loop of `function`: count descriptors, stopping at the first error. */
    method ParseUpvalues(count: nat) returns (r: Result<seq<UpvalueDesc>, Failure>)
      requires current <= |bytes|
      modifies this
      ensures current <= |bytes|
      ensures Outcome(r, current) == UpvaluesAt(bytes, old(current), count)
    {
      var ups: seq<UpvalueDesc> := [];
      var i := 0;
      JoinNil(UpvaluesAt(bytes, current, count));
      while i < count
        invariant i <= count && current <= |bytes|
        invariant UpvaluesAt(bytes, old(current), count) == Join(ups, UpvaluesAt(bytes, current, count - i))
      {
        var u := ParseUpvalue();
        if u.Err? {
          return Err(u.error);
        }
        JoinJoin(ups, u.value, UpvaluesAt(bytes, current, count - i - 1));
        ups := ups + [u.value];
        i := i + 1;
      }
      assert ups + [] == ups;
      r := Ok(ups);
    }

    /** One descriptor: a u64 index and a flag byte that must be 0 or 1. */
    method ParseUpvalue() returns (r: Result<UpvalueDesc, Failure>)
      requires current <= |bytes|
      modifies this
      ensures current <= |bytes|
      ensures Outcome(r, current) == UpvalueAt(bytes, old(current))
    {
      var index := Word();
      if index.Err? {
        return Err(index.error);
      }
      var flag := Advance(1);
      if flag.Err? {
        return Err(flag.error);
      }
      if flag.value == [0] {
        r := Ok(UpvalueDesc(index.value, false));
      } else if flag.value == [1] {
        r := Ok(UpvalueDesc(index.value, true));
      } else {
        r := Err(ParseError);
      }
    }

    /** `chunk`: an info marker is unimplemented; otherwise the data then the code section. */
    method ParseChunk() returns (r: Result<Chunk, Failure>)
      requires current <= |bytes|
      modifies this
      ensures current <= |bytes|
      ensures Outcome(r, current) == ChunkAt(bytes, old(current))
      decreases |bytes| - current, 4
    {
      var marker := Peek(1);
      if marker.Err? {
        return Err(marker.error);
      }
      if marker.value == [SECTION_INFO] {
        return Err(Unimplemented);
      }
      var data := ParseData();
      if data.Err? {
        return Err(data.error);
      }
      var code := ParseCode();
      if code.Err? {
        return Err(code.error);
      }
      r := Ok(ShuChunk.Chunk(data.value, code.value));
    }

    /** `data`: the data marker, a count, then exactly that many constants. */
    method ParseData() returns (r: Result<seq<Constant>, Failure>)
      requires current <= |bytes|
      modifies this
      ensures current <= |bytes|
      ensures Outcome(r, current) == DataAt(bytes, old(current))
      decreases |bytes| - current, 3
    {
      var m := Expect([SECTION_DATA]);
      if m.Err? {
        return Err(m.error);
      }
      var len := Word();
      if len.Err? {
        return Err(len.error);
      }
      var n := len.value;
      var constants: seq<Constant> := [];
      var i := 0;
      assert DataAt(bytes, old(current)) == ConstantsAt(bytes, current, n);
      JoinNil(ConstantsAt(bytes, current, n));
      while i < n
        invariant i <= n && old(current) < current <= |bytes|
        invariant DataAt(bytes, old(current)) == Join(constants, ConstantsAt(bytes, current, n - i))
      {
        var c := ParseConstant();
        if c.Err? {
          return Err(c.error);
        }
        JoinJoin(constants, c.value, ConstantsAt(bytes, current, n - i - 1));
        constants := constants + [c.value];
        i := i + 1;
      }
      assert constants + [] == constants;
      r := Ok(constants);
    }

    /** `code`: marker, byte length, then that many raw code bytes. */
    method ParseCode() returns (r: Result<seq<u8>, Failure>)
      requires current <= |bytes|
      modifies this
      ensures current <= |bytes|
      ensures Outcome(r, current) == CodeAt(bytes, old(current))
    {
      var m := Expect([SECTION_CODE]);
      if m.Err? {
        return Err(m.error);
      }
      var len := Word();
      if len.Err? {
        return Err(len.error);
      }
      r := Take(len.value);
    }

    /** `constant`: dispatch on the tag byte, without consuming it. */
    method ParseConstant() returns (r: Result<Constant, Failure>)
      requires current <= |bytes|
      modifies this
      ensures current <= |bytes|
      ensures Outcome(r, current) == ContainerParse.ConstantAt(bytes, old(current))
      decreases |bytes| - current, 1
    {
      var tag := Peek(1);
      if tag.Err? {
        return Err(tag.error);
      }
      if tag.value == [CONSTANT_STR] {
        var s := ParseConstantString();
        r := if s.Ok? then Ok(Text(s.value)) else Err(s.error);
      } else if tag.value == [CONSTANT_FUN] {
        var f := ParseConstantFunction();
        r := if f.Ok? then Ok(Fun(f.value)) else Err(f.error);
      } else {
        r := Err(ParseError);
      }
    }

    /** `constant_string`: marker, byte length, then that many bytes of valid UTF-8. */
    method ParseConstantString() returns (r: Result<seq<u8>, Failure>)
      requires current <= |bytes|
      modifies this
      ensures current <= |bytes|
      ensures Outcome(if r.Ok? then Ok(Text(r.value)) else Err(r.error), current) == ConstantStringAt(bytes, old(current))
    {
      var m := Expect([CONSTANT_STR]);
      if m.Err? {
        return Err(m.error);
      }
      var len := Word();
      if len.Err? {
        return Err(len.error);
      }
      var s := Take(len.value);
      if s.Err? {
        return Err(s.error);
      }
      if ValidUtf8(s.value) {
        r := Ok(s.value);
      } else {
        r := Err(ParseError);
      }
    }

    /** `constant_function`: marker, then a nested function record. */
    method ParseConstantFunction() returns (r: Result<Function, Failure>)
      requires current <= |bytes|
      modifies this
      ensures current <= |bytes|
      ensures Outcome(if r.Ok? then Ok(Fun(r.value)) else Err(r.error), current) == ConstantFunctionAt(bytes, old(current))
      decreases |bytes| - current, 0
    {
      var m := Expect([CONSTANT_FUN]);
      if m.Err? {
        return Err(m.error);
      }
      r := ParseFunction();
    }
  }

  /** `Parser::new(bytes).parse()`. */
  method Load(bytes: seq<u8>) returns (r: Result<Function, Failure>)
    ensures r == ParseBytes(bytes)
  {
    var p := new Parser(bytes);
    r := p.Parse();
  }
}
