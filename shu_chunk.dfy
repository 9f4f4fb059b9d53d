/**
 * The compiled form of a function as the shu virtual machine holds it, and the
 * decoding of one instruction. An instruction is one byte whose high six bits
 * are the opcode and whose low two bits are a size class c; an opcode that
 * takes an operand is followed by 2^c bytes of little-endian operand.
 */
module ShuChunk {
  import opened Wrappers
  import opened Bytes
  import opened Opcodes

  /** A pool entry: a string (its UTF-8 bytes) or a nested function. */
  datatype Constant = Text(text: seq<u8>) | Fun(fn: Function)

  /** A capture descriptor: a slot of the enclosing frame, or an upvalue of the enclosing lambda. */
  datatype UpvalueDesc = UpvalueDesc(index: nat, isLocal: bool)

  datatype Function = Function(arity: nat, chunk: Chunk, locals: nat, upvalues: seq<UpvalueDesc>)

  /** The constant pool and the instruction bytes; the debug info is not modelled. */
  datatype Chunk = Chunk(data: seq<Constant>, code: seq<u8>)

  /** A decoded instruction: the raw instruction byte and the operand value. */
  datatype Op = Op(byte: u8, operand: nat)

  /** 2^c, the operand byte count of size class c. */
  function Width(c: nat): (w: nat)
    ensures w >= 1
    ensures c <= 3 ==> w == [1, 2, 4, 8][c]
  {
    if c == 0 then 1 else 2 * Width(c - 1)
  }

  /** `Op::code`: the high six bits of the instruction byte. */
  function RawCode(b: u8): (n: nat)
    ensures n < 64
    ensures 4 * n + b as nat % 4 == b as nat
  {
    b as nat / 4
  }

  /** `Op::opcode`: the opcode the high six bits name, if they name one. */
  function OpcodeOf(b: u8): (r: Option<Opcode>)
    ensures r.Some? <==> RawCode(b) < OPCODE_COUNT
  {
    FromCode(RawCode(b))
  }

  /** `Op::size`: the operand byte count an instruction byte announces. */
  function Size(b: u8): (n: nat)
    ensures n in {0, 1, 2, 4, 8}
    ensures n > 0 <==> OpcodeOf(b).Some? && HasOperand(OpcodeOf(b).value)
    ensures n > 0 ==> n == Width(b as nat % 4)
  {
    match OpcodeOf(b)
    case Some(op) => if HasOperand(op) then Width(b as nat % 4) else 0
    case None => 0
  }

  /** `read_u8` .. `read_u64`: n bytes at offset, little-endian, if they are all present. */
  function ReadLE(bytes: seq<u8>, offset: nat, n: nat): (r: Option<nat>)
    ensures r.Some? <==> offset + n <= |bytes|
    ensures r.Some? ==> r.value < Pow256(n) && LE(r.value, n) == bytes[offset..offset + n]
  {
    if offset + n <= |bytes| then
      LEOfFromLE(bytes[offset..offset + n]);
      FromLEBound(bytes[offset..offset + n]);
      Some(FromLE(bytes[offset..offset + n]))
    else None
  }

  /** `Chunk::op`: the instruction at offset, or None when its byte or any operand byte is missing. */
  function OpAt(chunk: Chunk, offset: nat): (r: Option<Op>)
    ensures r.Some? <==> offset < |chunk.code| && offset + 1 + Size(chunk.code[offset]) <= |chunk.code|
    ensures r.Some? ==> r.value.byte == chunk.code[offset]
    ensures r.Some? && Size(r.value.byte) == 0 ==> r.value.operand == 0
    ensures r.Some? ==> r.value.operand < U64_LIMIT
    ensures r.Some? ==> LE(r.value.operand, Size(r.value.byte)) == chunk.code[offset + 1..offset + 1 + Size(r.value.byte)]
  {
    if offset < |chunk.code| then
      var b := chunk.code[offset];
      if Size(b) == 0 then Some(Op(b, 0))
      else
        Pow256Widths();
        match ReadLE(chunk.code, offset + 1, Size(b))
        case Some(v) => Some(Op(b, v))
        case None => None
    else None
  }

  /** `Chunk::constant`: the pool entry at index, None past the pool. */
  function ConstantAt(chunk: Chunk, index: nat): (r: Option<Constant>)
    ensures r.Some? <==> index < |chunk.data|
    ensures r.Some? ==> r.value == chunk.data[index]
  {
    if index < |chunk.data| then Some(chunk.data[index]) else None
  }

  /** `Constant::as_str`: Some exactly for string constants. */
  function AsStr(c: Constant): (r: Option<seq<u8>>)
    ensures r.Some? <==> c.Text?
    ensures r.Some? ==> c == Text(r.value)
  {
    if c.Text? then Some(c.text) else None
  }

  /** `Constant::as_function`: Some exactly for function constants. */
  function AsFunction(c: Constant): (r: Option<Function>)
    ensures r.Some? <==> c.Fun?
    ensures r.Some? ==> c == Fun(r.value)
  {
    if c.Fun? then Some(c.fn) else None
  }

  /** Instruction bytes whose high six bits are 43..63 name no opcode, and carry no operand. */
  lemma UnknownOpcodeHasNoOperand(b: u8)
    requires b as nat / 4 >= OPCODE_COUNT
    ensures OpcodeOf(b).None? && Size(b) == 0
  {
  }
}
