/**
 * The compiler's instruction encoder: a growable chunk of code bytes and a
 * constant pool, with `emit` appending one instruction and `patch` rewriting
 * the operand of an instruction already emitted.
 */
module CompilerChunk {
  import opened Wrappers
  import opened Bytes
  import opened Opcodes
  import ShuChunk

  const I64_MIN: int := -0x8000_0000_0000_0000
  const I64_MAX: int := 0x7FFF_FFFF_FFFF_FFFF

  /** An operand before normalisation. F64 carries the float's IEEE-754 bit pattern. */
  datatype Operand = F64(bits: nat) | I64(i: int) | Usize(n: nat) | String(text: seq<u8>) | Function(fn: ShuChunk.Function)

  /** The range `normalize_operand` needs: an `I64` is an i64, reinterpreted as a u64. */
  predicate OperandInRange(o: Operand) {
    o.I64? ==> I64_MIN <= o.i <= I64_MAX
  }

  /** The ranges the source's Rust types impose on operands: 64-bit words and a 64-bit `usize`. */
  predicate OperandFits(o: Operand) {
    match o
    case F64(bits) => IsU64(bits)
    case I64(i) => I64_MIN <= i <= I64_MAX
    case Usize(n) => IsU64(n)
    case _ => true
  }

  /** An instruction to emit: an opcode and an optional operand. */
  datatype Op = Op(code: Opcode, operand: Option<Operand>)

  /** The smallest size class whose width holds n (the `Usize` arm of `normalize_operand`). */
  function SizeClass(n: nat): (c: nat)
    ensures c <= 3
    ensures IsU64(n) ==> n < Pow256(ShuChunk.Width(c))
    ensures c > 0 ==> Pow256(ShuChunk.Width(c - 1)) <= n
  {
    Pow256Widths();
    if n <= 0xFF then 0
    else if n <= 0xFFFF then 1
    else if n <= 0xFFFF_FFFF then 2
    else 3
  }

  /** The 64-bit two's complement pattern of an i64 (`int as u64`). */
  function Bits64(i: int): (b: nat)
    requires I64_MIN <= i <= I64_MAX
    ensures IsU64(b)
    ensures (b - i) % U64_LIMIT == 0
  {
    if i >= 0 then i else i + U64_LIMIT
  }

  /** The constant an operand adds to the pool: one for a string or a function, none otherwise. */
  function PoolEntry(o: Option<Operand>): (r: seq<ShuChunk.Constant>)
    ensures |r| <= 1
    ensures |r| == 1 <==> o.Some? && (o.value.String? || o.value.Function?)
  {
    match o
    case Some(String(s)) => [ShuChunk.Text(s)]
    case Some(Function(f)) => [ShuChunk.Fun(f)]
    case _ => []
  }

  /** `normalize_operand`: the operand value and size class, for a pool currently poolLen long. */
  function Normalized(o: Operand, poolLen: nat): (r: (nat, nat))
    requires OperandInRange(o)
    ensures r.1 <= 3
    ensures (o.F64? || o.I64?) ==> r.1 == 3
    ensures o.Usize? ==> r == (o.n, SizeClass(o.n))
    ensures (o.String? || o.Function?) ==> r.0 == poolLen
    ensures IsU64(r.0) ==> r.0 < Pow256(ShuChunk.Width(r.1))
  {
    Pow256Widths();
    match o
    case F64(bits) => (bits, 3)
    case I64(i) => (Bits64(i), 3)
    case Usize(n) => (n, SizeClass(n))
    case String(_) => (poolLen, SizeClass(poolLen))
    case Function(_) => (poolLen, SizeClass(poolLen))
  }

  /** The bytes of one instruction: `(opcode << 2) | size`, then the operand iff the opcode takes one. */
  function Encode(code: Opcode, value: nat, size: nat): (r: seq<u8>)
    requires size <= 3
    ensures |r| == 1 + (if HasOperand(code) then ShuChunk.Width(size) else 0)
    ensures r[0] as nat == 4 * Code(code) + size
  {
    [(4 * Code(code) + size) as u8] + (if HasOperand(code) then LE(value, ShuChunk.Width(size)) else [])
  }

  /** The value and size class `emit` uses: the normalised operand, or (0, 0) without one. */
  function EmitFields(op: Op, poolLen: nat): (r: (nat, nat))
    requires op.operand.Some? ==> OperandInRange(op.operand.value)
    ensures r.1 <= 3
    ensures op.operand.None? ==> r == (0, 0)
  {
    if op.operand.Some? then Normalized(op.operand.value, poolLen) else (0, 0)
  }

  /** `emit` on the chunk as a value: the pool entry, if any, and the encoded instruction appended. */
  function Emitted(c: ShuChunk.Chunk, op: Op): (r: ShuChunk.Chunk)
    requires op.operand.Some? ==> OperandInRange(op.operand.value)
    ensures r.data == c.data + PoolEntry(op.operand)
    ensures r.code == c.code + Encode(op.code, EmitFields(op, |c.data|).0, EmitFields(op, |c.data|).1)
  {
    var (value, size) := EmitFields(op, |c.data|);
    ShuChunk.Chunk(c.data + PoolEntry(op.operand), c.code + Encode(op.code, value, size))
  }

  /** The operand bytes of the instruction at offset, by the width its byte records, lie inside the code. */
  predicate PatchFits(c: ShuChunk.Chunk, offset: nat) {
    offset < |c.code| && offset + 1 + ShuChunk.Width(c.code[offset] as nat % 4) <= |c.code|
  }

  /** `patch` on the chunk as a value. */
  function Patched(c: ShuChunk.Chunk, offset: nat, o: Operand): (r: ShuChunk.Chunk)
    requires OperandInRange(o) && PatchFits(c, offset)
    ensures |r.code| == |c.code| && r.data == c.data + PoolEntry(Some(o))
    ensures r.code[..offset + 1] == c.code[..offset + 1]
    ensures var w := ShuChunk.Width(c.code[offset] as nat % 4);
      r.code[offset + 1..offset + 1 + w] == LE(Normalized(o, |c.data|).0, w) && r.code[offset + 1 + w..] == c.code[offset + 1 + w..]
  {
    var w := ShuChunk.Width(c.code[offset] as nat % 4);
    var bytes := c.code[..offset + 1] + LE(Normalized(o, |c.data|).0, w) + c.code[offset + 1 + w..];
    assert bytes[..offset + 1] == c.code[..offset + 1];
    assert bytes[offset + 1..offset + 1 + w] == LE(Normalized(o, |c.data|).0, w);
    assert bytes[offset + 1 + w..] == c.code[offset + 1 + w..];
    ShuChunk.Chunk(c.data + PoolEntry(Some(o)), bytes)
  }

  class Chunk {
    var data: seq<ShuChunk.Constant>
    var code: seq<u8>

    constructor ()
      ensures data == [] && code == []
    {
      data := [];
      code := [];
    }

    /** The chunk as the virtual machine receives it. */
    function Frozen(): ShuChunk.Chunk
      reads this
    {
      ShuChunk.Chunk(data, code)
    }

    function Len(): (n: nat)
      reads this
      ensures n == |code|
    {
      |code|
    }

    /** `add_constant`: append to the pool and return the new entry's index. */
    method AddConstant(c: ShuChunk.Constant) returns (index: nat)
      modifies this`data
      ensures data == old(data) + [c]
      ensures index == |old(data)| && data[index] == c
    {
      data := data + [c];
      index := |data| - 1;
    }

    /**
     * `normalize_operand`: strings and functions go into the pool and are
     * encoded by index, with the size class of a `Usize` of that index.
     */
    method NormalizeOperand(o: Operand) returns (value: nat, size: nat)
      requires OperandInRange(o)
      modifies this`data
      ensures (value, size) == Normalized(o, |old(data)|)
      ensures data == old(data) + PoolEntry(Some(o))
    {
      match o {
        case F64(bits) =>
          value, size := bits, 3;
        case I64(i) =>
          value, size := Bits64(i), 3;
        case Usize(n) =>
          value, size := n, SizeClass(n);
        case String(s) =>
          var index := AddConstant(ShuChunk.Text(s));
          value, size := index, SizeClass(index);
        case Function(f) =>
          var index := AddConstant(ShuChunk.Fun(f));
          value, size := index, SizeClass(index);
      }
    }

    /** `emit`: append one encoded instruction and return the offset it starts at. */
    method Emit(op: Op) returns (offset: nat)
      requires op.operand.Some? ==> OperandInRange(op.operand.value)
      modifies this
      ensures offset == |old(code)|
      ensures code == old(code) + Encode(op.code, EmitFields(op, |old(data)|).0, EmitFields(op, |old(data)|).1)
      ensures data == old(data) + PoolEntry(op.operand)
      ensures Frozen() == Emitted(old(Frozen()), op)
    {
      offset := Len();
      var value, size := 0, 0;
      if op.operand.Some? {
        value, size := NormalizeOperand(op.operand.value);
      }
      code := code + [(4 * Code(op.code) + size) as u8];
      if HasOperand(op.code) {
        code := code + LE(value, ShuChunk.Width(size));
      }
    }

    /** The operand width recorded in the instruction byte at offset. */
    function PatchWidth(offset: nat): (w: nat)
      reads this
      requires offset < |code|
      ensures w in {1, 2, 4, 8}
    {
      ShuChunk.Width(code[offset] as nat % 4)
    }

    /**
     * `patch`: overwrite the operand bytes of the instruction at offset with the
     * new value, masked to the width its size class already records. The source
     * panics when the offset or the operand bytes lie outside the code.
     */
    method Patch(offset: nat, o: Operand)
      requires OperandInRange(o)
      requires offset < |code| && offset + 1 + PatchWidth(offset) <= |code|
      modifies this
      ensures |code| == |old(code)|
      ensures code == old(code)[..offset + 1] + LE(Normalized(o, |old(data)|).0, old(PatchWidth(offset)))
                      + old(code)[offset + 1 + old(PatchWidth(offset))..]
      ensures data == old(data) + PoolEntry(Some(o))
      ensures Frozen() == Patched(old(Frozen()), offset, o)
    {
      var value, _ := NormalizeOperand(o);
      var w := PatchWidth(offset);
      code := code[..offset + 1] + LE(value, w) + code[offset + 1 + w..];
    }
  }

  /**
   * Decoding where an instruction was encoded recovers its opcode and its
   * operand masked to the width of its size class; the instruction occupies
   * exactly the bytes `Encode` produced.
   */
  lemma DecodeEncoded(data: seq<ShuChunk.Constant>, prefix: seq<u8>, code: Opcode, value: nat, size: nat, suffix: seq<u8>)
    requires size <= 3
    ensures var op := ShuChunk.OpAt(ShuChunk.Chunk(data, prefix + Encode(code, value, size) + suffix), |prefix|);
      && op.Some?
      && ShuChunk.OpcodeOf(op.value.byte) == Some(code)
      && 1 + ShuChunk.Size(op.value.byte) == |Encode(code, value, size)|
      && op.value.operand == (if HasOperand(code) then value % Pow256(ShuChunk.Width(size)) else 0)
  {
    var bytes := prefix + Encode(code, value, size) + suffix;
    var b := bytes[|prefix|];
    assert b == Encode(code, value, size)[0];
    assert ShuChunk.RawCode(b) == Code(code);
    FromCodeOfCode(code);
    if HasOperand(code) {
      var w := ShuChunk.Width(size);
      assert bytes[|prefix| + 1..|prefix| + 1 + w] == LE(value, w);
      var op := ShuChunk.OpAt(ShuChunk.Chunk(data, bytes), |prefix|);
      assert LE(op.value.operand, w) == LE(value, w);
      FromLEOfLE(op.value.operand, w);
      FromLEOfLE(value, w);
    }
  }

  /** An operand that fits its size class decodes to exactly the value emitted. */
  lemma DecodeEmittedOperand(data: seq<ShuChunk.Constant>, prefix: seq<u8>, op: Op, poolLen: nat, suffix: seq<u8>)
    requires op.operand.Some? ==> OperandFits(op.operand.value)
    requires IsU64(poolLen)
    requires HasOperand(op.code)
    ensures var (v, s) := EmitFields(op, poolLen);
      var d := ShuChunk.OpAt(ShuChunk.Chunk(data, prefix + Encode(op.code, v, s) + suffix), |prefix|);
      d.Some? && ShuChunk.OpcodeOf(d.value.byte) == Some(op.code) && d.value.operand == v
  {
    var (v, s) := EmitFields(op, poolLen);
    EmitFieldsFit(op, poolLen);
    DecodeEncoded(data, prefix, op.code, v, s, suffix);
  }

  /** The emitted value is a u64 that its size class holds, so masking leaves it alone. */
  lemma EmitFieldsFit(op: Op, poolLen: nat)
    requires op.operand.Some? ==> OperandFits(op.operand.value)
    requires IsU64(poolLen)
    ensures var r := EmitFields(op, poolLen);
      IsU64(r.0) && r.0 % Pow256(ShuChunk.Width(r.1)) == r.0
  {
    var r := EmitFields(op, poolLen);
    var m := Pow256(ShuChunk.Width(r.1));
    assert IsU64(r.0) && r.0 < m;
    ModUnique(r.0, m, 0, r.0);
  }

  /**
   * After `patch`, the instruction at offset still has its opcode and now
   * decodes to the new value masked to the recorded width: a class-0 jump
   * keeps only the low byte of its target.
   */
  lemma DecodePatched(data: seq<ShuChunk.Constant>, before: seq<u8>, offset: nat, value: nat)
    requires offset < |before|
    requires ShuChunk.OpcodeOf(before[offset]).Some? && HasOperand(ShuChunk.OpcodeOf(before[offset]).value)
    requires offset + 1 + ShuChunk.Width(before[offset] as nat % 4) <= |before|
    ensures var w := ShuChunk.Width(before[offset] as nat % 4);
      var after := before[..offset + 1] + LE(value, w) + before[offset + 1 + w..];
      var d := ShuChunk.OpAt(ShuChunk.Chunk(data, after), offset);
      d.Some? && d.value.byte == before[offset] && d.value.operand == value % Pow256(w)
  {
    var w := ShuChunk.Width(before[offset] as nat % 4);
    var after := before[..offset + 1] + LE(value, w) + before[offset + 1 + w..];
    assert after[offset] == before[offset];
    assert after[offset + 1..offset + 1 + w] == LE(value, w);
    var d := ShuChunk.OpAt(ShuChunk.Chunk(data, after), offset);
    assert LE(d.value.operand, w) == LE(value, w);
    FromLEOfLE(d.value.operand, w);
    FromLEOfLE(value, w);
  }

  /** A jump emitted without an operand has size class 0: a single zero operand byte. */
  lemma BareJumpIsClassZero(d: seq<ShuChunk.Constant>)
    ensures Encode(Jmp, EmitFields(Op(Jmp, None), |d|).0, EmitFields(Op(Jmp, None), |d|).1) == [(4 * 16) as u8, 0 as u8]
  {
  }
}
