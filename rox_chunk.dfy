/**
 * rox's chunk: the bytecode the compiler writes, one source line per code
 * byte, and the constant pool the code indexes with one-byte operands.
 */
module RoxChunk {
  import opened Wrappers
  import opened Bytes

  /** rox's opcodes, as their byte values. */
  const OP_CONSTANT: u8 := 0
  const OP_NIL: u8 := 1
  const OP_TRUE: u8 := 2
  const OP_FALSE: u8 := 3
  const OP_RETURN: u8 := 4
  const OP_EQUAL: u8 := 5
  const OP_GREATER: u8 := 6
  const OP_LESS: u8 := 7
  const OP_ADD: u8 := 8
  const OP_SUBTRACT: u8 := 9
  const OP_MULTIPLY: u8 := 10
  const OP_DIVIDE: u8 := 11
  const OP_NOT: u8 := 12
  const OP_PRINT: u8 := 13
  const OP_NEGATE: u8 := 14
  const OP_POP: u8 := 15
  const OP_GET_GLOBAL: u8 := 16
  const OP_SET_GLOBAL: u8 := 17
  const OP_DEFINE_GLOBAL: u8 := 18

  /**
   * The constants the compiler creates: a number, kept as the digits it was
   * written with, and a string, kept as its bytes.
   */
  datatype Value = Number(literal: seq<u8>) | Str(bytes: seq<u8>)

  /** A chunk's contents. */
  datatype ChunkData = ChunkData(constants: seq<Value>, code: seq<u8>, lines: seq<nat>)

  /** Every code byte has its line. */
  predicate Valid(c: ChunkData) {
    |c.code| == |c.lines|
  }

  /** The contents of a new chunk. */
  function Empty(): (r: ChunkData)
    ensures Valid(r) && r.constants == [] && r.code == []
  {
    ChunkData([], [], [])
  }

  /** `write`: one more code byte, tagged with its line. */
  function Written(c: ChunkData, code: u8, line: nat): (r: ChunkData)
    ensures Valid(c) ==> Valid(r)
    ensures r.constants == c.constants
    ensures |r.code| == |c.code| + 1 && r.code[..|c.code|] == c.code && r.code[|c.code|] == code
    ensures |r.lines| == |c.lines| + 1 && r.lines[..|c.lines|] == c.lines && r.lines[|c.lines|] == line
  {
    c.(code := c.code + [code], lines := c.lines + [line])
  }

  /**
   * The index `add_constant` returns for the constant just appended to a pool
   * that now holds `count` constants; None where the index does not fit in a
   * byte and `add_constant` panics.
   */
  function IndexOfLast(count: nat): (r: Option<u8>)
    requires count > 0
    ensures r.Some? <==> count <= 256
    ensures r.Some? ==> r.value as int == count - 1
  {
    if count - 1 < 256 then Some((count - 1) as u8) else None
  }

  class Chunk {
    var constants: seq<Value>
    var code: seq<u8>
    var lines: seq<nat>

    function Data(): ChunkData
      reads this
    {
      ChunkData(constants, code, lines)
    }

    /** `Chunk::new`. */
    constructor ()
      ensures Data() == Empty()
    {
      constants := [];
      code := [];
      lines := [];
    }

    /** `write`: the byte and its line are appended together. */
    method Write(byte: u8, line: nat)
      modifies this
      ensures Data() == Written(old(Data()), byte, line)
    {
      code := code + [byte];
      lines := lines + [line];
    }

    /**
     * `add_constant`: appends the constant and returns its index, or None
     * where the index exceeds 255 and the source panics.
     */
    method AddConstant(v: Value) returns (r: Option<u8>)
      modifies this
      ensures constants == old(constants) + [v] && code == old(code) && lines == old(lines)
      ensures r == IndexOfLast(|constants|)
      ensures r.Some? ==> constants[r.value] == v
    {
      constants := constants + [v];
      r := IndexOfLast(|constants|);
    }
  }
}
