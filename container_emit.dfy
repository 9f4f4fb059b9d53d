/**
 * The compiler's serialiser for compiled functions: every section is a
 * one-byte marker followed by a u64 little-endian length or count.
 */
module ContainerEmit {
  import opened Bytes
  import opened ShuChunk
  import opened Container

  /** `emit`: the magic bytes, then the top-level function record. */
  function Emit(f: Function): (r: seq<u8>)
    ensures |r| > 4
  {
    MAGIC + EmitFunction(f)
  }

  /** `emit_function`: arity, chunk, locals, upvalue count, then (index, flag) per upvalue. */
  function EmitFunction(f: Function): (r: seq<u8>)
    decreases f, 3
    ensures |r| >= 34
  {
    LE(f.arity, 8) + EmitChunk(f.chunk) + LE(f.locals, 8) + LE(|f.upvalues|, 8) + EmitUpvalues(f.upvalues)
  }

  function EmitUpvalues(us: seq<UpvalueDesc>): (r: seq<u8>)
    ensures |r| == 9 * |us|
  {
    if us == [] then [] else EmitUpvalue(us[0]) + EmitUpvalues(us[1..])
  }

  /** One capture descriptor: its index, then exactly 1 for a local and 0 for an upvalue. */
  function EmitUpvalue(u: UpvalueDesc): (r: seq<u8>)
    ensures |r| == 9
  {
    LE(u.index, 8) + [if u.isLocal then 1 else 0]
  }

  /** `emit_chunk`: the data section, then the code marker, the code length and the raw code. */
  function EmitChunk(c: Chunk): (r: seq<u8>)
    decreases c, 2
    ensures |r| >= 18
  {
    EmitData(c.data) + [SECTION_CODE] + LE(|c.code|, 8) + c.code
  }

  /** `emit_data`: the data marker, the constant count, then the constants in pool order. */
  function EmitData(cs: seq<Constant>): (r: seq<u8>)
    decreases cs, 2
    ensures |r| >= 9
  {
    [SECTION_DATA] + LE(|cs|, 8) + EmitConstants(cs)
  }

  function EmitConstants(cs: seq<Constant>): seq<u8>
    decreases cs, 1
  {
    if cs == [] then [] else EmitConstant(cs[0]) + EmitConstants(cs[1..])
  }

  /** `emit_constant`: a string is its marker, byte length and bytes; a function its marker and record. */
  function EmitConstant(c: Constant): (r: seq<u8>)
    decreases c, 0
    ensures |r| > 0
  {
    match c
    case Text(s) => [CONSTANT_STR] + LE(|s|, 8) + s
    case Fun(f) => [CONSTANT_FUN] + EmitFunction(f)
  }
}
