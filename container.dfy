/**
 * The binary container shu loads: the section and constant markers both
 * sides agree on, and the conditions under which a function can be written
 * out faithfully (every count and field fits in a u64, every string constant
 * is valid UTF-8, as a Rust `String` always is).
 */
module Container {
  import opened Bytes
  import opened ShuChunk

  const SECTION_INFO: u8 := 1
  const SECTION_DATA: u8 := 2
  const SECTION_CODE: u8 := 3

  const CONSTANT_STR: u8 := 1
  const CONSTANT_FUN: u8 := 2

  /** The four bytes every container starts with: 'O', 'M', 'A', version 1. */
  const MAGIC: seq<u8> := [0x4F, 0x4D, 0x41, 1]

  predicate Tail(b: u8) { 0x80 <= b <= 0xBF }

  /**
   * Well-formed UTF-8 as section 4 of RFC 3629 defines it (the check
   * `String::from_utf8` performs): no overlong forms, no surrogates, nothing
   * above U+10FFFF.
   */
  predicate ValidUtf8(s: seq<u8>)
    decreases |s|
  {
    if s == [] then true
    else if s[0] <= 0x7F then ValidUtf8(s[1..])
    else if 0xC2 <= s[0] <= 0xDF then
      |s| >= 2 && Tail(s[1]) && ValidUtf8(s[2..])
    else if 0xE0 <= s[0] <= 0xEF then
      |s| >= 3 && Tail(s[1]) && Tail(s[2])
      && (s[0] == 0xE0 ==> s[1] >= 0xA0)
      && (s[0] == 0xED ==> s[1] <= 0x9F)
      && ValidUtf8(s[3..])
    else if 0xF0 <= s[0] <= 0xF4 then
      |s| >= 4 && Tail(s[1]) && Tail(s[2]) && Tail(s[3])
      && (s[0] == 0xF0 ==> s[1] >= 0x90)
      && (s[0] == 0xF4 ==> s[1] <= 0x8F)
      && ValidUtf8(s[4..])
    else false
  }

  /** A function every field of which the container can represent. */
  predicate FunctionFits(f: Function)
    decreases f, 2
  {
    IsU64(f.arity) && IsU64(f.locals) && IsU64(|f.upvalues|)
    && (forall u | u in f.upvalues :: IsU64(u.index))
    && ChunkFits(f.chunk)
  }

  predicate ChunkFits(c: Chunk)
    decreases c, 1
  {
    IsU64(|c.code|) && IsU64(|c.data|) && ConstantsFit(c.data)
  }

  predicate ConstantsFit(cs: seq<Constant>)
    decreases cs, 0
  {
    forall i | 0 <= i < |cs| :: ConstantFits(cs[i])
  }

  predicate ConstantFits(c: Constant)
    decreases c, 0
  {
    match c
    case Text(s) => IsU64(|s|) && ValidUtf8(s)
    case Fun(f) => FunctionFits(f)
  }
}
