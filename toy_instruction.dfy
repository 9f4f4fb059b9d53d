/**
 * The toy virtual machine's instruction byte and operands. The high five bits
 * of an instruction byte are the operation code, the low three bits the
 * operation type; an operand is 1, 2 or 4 little-endian bytes. Integer
 * arithmetic wraps at the operand's width; f32 arithmetic is a parameter.
 */
module ToyInstruction {
  import opened Wrappers
  import opened Bytes

  datatype OperationCode = Nope | Push | Pop | Add | Sub | Mul | Div | Mod | Jump | Dup | Eq | Neq

  function CodeValue(c: OperationCode): nat {
    match c
    case Nope => 0x0
    case Push => 0x1
    case Pop => 0x2
    case Add => 0x3
    case Sub => 0x4
    case Mul => 0x5
    case Div => 0x6
    case Mod => 0x7
    case Jump => 0x8
    case Dup => 0x9
    case Eq => 0x10
    case Neq => 0x11
  }

  /** `OperationCode::from_operation`: the high five bits, or the invalid value they hold. */
  function CodeOf(operation: u8): (r: Result<OperationCode, nat>)
    ensures r.Ok? ==> CodeValue(r.value) == operation as nat / 8
    ensures r.Err? ==> r.error == operation as nat / 8
    ensures r.Err? <==> 0x9 < operation as nat / 8 && operation as nat / 8 != 0x10 && operation as nat / 8 != 0x11
  {
    var v := operation as nat / 8;
    if v == 0x0 then Ok(Nope)
    else if v == 0x1 then Ok(Push)
    else if v == 0x2 then Ok(Pop)
    else if v == 0x3 then Ok(Add)
    else if v == 0x4 then Ok(Sub)
    else if v == 0x5 then Ok(Mul)
    else if v == 0x6 then Ok(Div)
    else if v == 0x7 then Ok(Mod)
    else if v == 0x8 then Ok(Jump)
    else if v == 0x9 then Ok(Dup)
    else if v == 0x10 then Ok(Eq)
    else if v == 0x11 then Ok(Neq)
    else Err(v)
  }

  datatype OperationType = NopeType | U8 | U16 | U32 | I8 | I16 | I32 | F32

  function TypeValue(t: OperationType): nat {
    match t
    case NopeType => 0x0
    case U8 => 0x1
    case U16 => 0x2
    case U32 => 0x3
    case I8 => 0x4
    case I16 => 0x5
    case I32 => 0x6
    case F32 => 0x7
  }

  /** `OperationType::from_operation`: the low three bits; all eight are types. */
  function TypeOf(operation: u8): (t: OperationType)
    ensures TypeValue(t) == operation as nat % 8
  {
    var v := operation as nat % 8;
    if v == 0 then NopeType
    else if v == 1 then U8
    else if v == 2 then U16
    else if v == 3 then U32
    else if v == 4 then I8
    else if v == 5 then I16
    else if v == 6 then I32
    else F32
  }

  /** The instruction byte for a code and a type. */
  function Operation(c: OperationCode, t: OperationType): u8 {
    (CodeValue(c) * 8 + TypeValue(t)) as u8
  }

  /** An instruction byte built from a code and a type decodes to that code and type. */
  lemma OperationDecodes(c: OperationCode, t: OperationType)
    ensures CodeOf(Operation(c, t)) == Ok(c) && TypeOf(Operation(c, t)) == t
  {
    var b := Operation(c, t) as nat;
    assert b / 8 == CodeValue(c) && b % 8 == TypeValue(t);
  }

  /** `len`: the operand width of a type in bytes. */
  function Len(t: OperationType): nat {
    match t
    case NopeType => 0
    case U8 => 1
    case I8 => 1
    case U16 => 2
    case I16 => 2
    case U32 => 4
    case I32 => 4
    case F32 => 4
  }

  predicate IsSigned(t: OperationType) {
    t == I8 || t == I16 || t == I32
  }

  /** `allowed_operation_type`. */
  function Allowed(c: OperationCode, t: OperationType): (ok: bool)
    ensures c == Nope ==> (ok <==> t == NopeType)
    ensures c == Mod ==> (ok <==> t != NopeType && t != F32)
    ensures c != Nope && c != Mod ==> (ok <==> t != NopeType)
  {
    match c
    case Nope => t == NopeType
    case Mod => t != NopeType && t != F32
    case _ => t != NopeType
  }

  /** The 32-bit pattern of an f32. */
  type Bits32 = n: nat | n < 0x1_0000_0000

  /** The f32 operations, on bit patterns. */
  datatype F32Ops = F32Ops(
    add: (Bits32, Bits32) -> Bits32,
    sub: (Bits32, Bits32) -> Bits32,
    mul: (Bits32, Bits32) -> Bits32,
    div: (Bits32, Bits32) -> Bits32,
    eq: (Bits32, Bits32) -> bool,
    isZero: Bits32 -> bool)

  datatype Operand =
    | U8Operand(u: nat)
    | U16Operand(u: nat)
    | U32Operand(u: nat)
    | I8Operand(i: int)
    | I16Operand(i: int)
    | I32Operand(i: int)
    | F32Operand(bits: Bits32)

  function TypeOfOperand(o: Operand): (t: OperationType)
    ensures t != NopeType
  {
    match o
    case U8Operand(_) => U8
    case U16Operand(_) => U16
    case U32Operand(_) => U32
    case I8Operand(_) => I8
    case I16Operand(_) => I16
    case I32Operand(_) => I32
    case F32Operand(_) => F32
  }

  /** The number of values of a type's width. */
  function Modulus(t: OperationType): nat {
    Pow256(Len(t))
  }

  /** The integer an operand holds; an f32 gives its bit pattern. */
  function ValueOf(o: Operand): int {
    match o
    case U8Operand(u) => u
    case U16Operand(u) => u
    case U32Operand(u) => u
    case I8Operand(i) => i
    case I16Operand(i) => i
    case I32Operand(i) => i
    case F32Operand(bits) => bits
  }

  /** The values a type holds: [0, 2^w) unsigned, [-2^(w-1), 2^(w-1)) signed. */
  predicate InRange(t: OperationType, v: int) {
    if IsSigned(t) then -(Modulus(t) / 2) <= v < Modulus(t) / 2
    else 0 <= v < Modulus(t)
  }

  predicate WellFormed(o: Operand) {
    InRange(TypeOfOperand(o), ValueOf(o))
  }

  /** The operand of a type with a value. */
  function Make(t: OperationType, v: int): (o: Operand)
    requires t != NopeType && (!IsSigned(t) ==> 0 <= v) && (t == F32 ==> v < 0x1_0000_0000)
    ensures TypeOfOperand(o) == t && ValueOf(o) == v
  {
    match t
    case U8 => U8Operand(v)
    case U16 => U16Operand(v)
    case U32 => U32Operand(v)
    case I8 => I8Operand(v)
    case I16 => I16Operand(v)
    case I32 => I32Operand(v)
    case F32 => F32Operand(v)
  }

  lemma Moduli()
    ensures Modulus(U8) == 0x100 && Modulus(I8) == 0x100
    ensures Modulus(U16) == 0x1_0000 && Modulus(I16) == 0x1_0000
    ensures Modulus(U32) == 0x1_0000_0000 && Modulus(I32) == 0x1_0000_0000 && Modulus(F32) == 0x1_0000_0000
  {
    Pow256Widths();
  }

  /** The two's-complement reading of an unsigned pattern. */
  function Signed(t: OperationType, u: nat): int {
    if u >= Modulus(t) / 2 then u - Modulus(t) else u
  }

  /**
   * `Operand::new`: the first `len` bytes read little-endian, as a signed
   * number for the I types; fewer bytes make the read's `unwrap` panic, and
   * a Nope operand panics.
   */
  function Decode(bytes: seq<u8>, t: OperationType): (o: Operand)
    requires t != NopeType && |bytes| >= Len(t)
    ensures TypeOfOperand(o) == t && WellFormed(o)
  {
    Moduli();
    var u := FromLE(bytes[..Len(t)]);
    FromLEBound(bytes[..Len(t)]);
    if IsSigned(t) then Make(t, Signed(t, u)) else Make(t, u)
  }

  /** `Operand::bytes`: the value's low `len` bytes, little-endian. */
  function Encode(o: Operand): (bytes: seq<u8>)
    ensures |bytes| == Len(TypeOfOperand(o))
  {
    LE(ValueOf(o) % Modulus(TypeOfOperand(o)), Len(TypeOfOperand(o)))
  }

  /** Encoding a well-formed operand and reading it back gives the operand. */
  lemma DecodeEncode(o: Operand)
    requires WellFormed(o)
    ensures Decode(Encode(o), TypeOfOperand(o)) == o
  {
    var t := TypeOfOperand(o);
    var m := Modulus(t);
    Moduli();
    var u := ValueOf(o) % m;
    FromLEOfLESmall(u, Len(t));
    assert Encode(o)[..Len(t)] == Encode(o);
    if IsSigned(t) {
      if ValueOf(o) < 0 {
        assert u == ValueOf(o) + m;
      } else {
        assert u == ValueOf(o);
      }
    }
  }

  /** The value `Decode` reads is the pattern reduced modulo the type's width. */
  lemma DecodeValueMod(bytes: seq<u8>, t: OperationType)
    requires t != NopeType && |bytes| == Len(t)
    ensures ValueOf(Decode(bytes, t)) % Modulus(t) == FromLE(bytes)
  {
    var m: int := Modulus(t);
    assert bytes[..Len(t)] == bytes;
    var u := FromLE(bytes);
    FromLEBound(bytes);
    if IsSigned(t) && u >= m / 2 {
      BelowModulus(u - m, m);
    } else {
      BelowModulus(u, m);
    }
  }

  /** A value in [-m, m) reduces modulo m to the value itself, or to it plus m when negative. */
  lemma BelowModulus(v: int, m: int)
    requires 0 < m && -m <= v < m
    ensures v % m == if v < 0 then v + m else v
  {
  }

  /** Reading an operand from exactly its width of bytes and writing it back gives the bytes. */
  lemma EncodeDecode(bytes: seq<u8>, t: OperationType)
    requires t != NopeType && |bytes| == Len(t)
    ensures Encode(Decode(bytes, t)) == bytes
  {
    DecodeValueMod(bytes, t);
    LEOfFromLE(bytes);
  }

  /** `is_zero`: the zero of the operand's own kind. */
  function IsZero(fl: F32Ops, o: Operand): bool {
    if o.F32Operand? then fl.isZero(o.bits) else ValueOf(o) == 0
  }

  /** The derived `==`: the same variant and the same payload, f32s by float equality. */
  function OperandEq(fl: F32Ops, a: Operand, b: Operand): (r: bool)
    ensures TypeOfOperand(a) != TypeOfOperand(b) ==> !r
    ensures !a.F32Operand? && TypeOfOperand(a) == TypeOfOperand(b) ==> (r <==> ValueOf(a) == ValueOf(b))
  {
    match (a, b)
    case (F32Operand(x), F32Operand(y)) => fl.eq(x, y)
    case (U8Operand(x), U8Operand(y)) => x == y
    case (U16Operand(x), U16Operand(y)) => x == y
    case (U32Operand(x), U32Operand(y)) => x == y
    case (I8Operand(x), I8Operand(y)) => x == y
    case (I16Operand(x), I16Operand(y)) => x == y
    case (I32Operand(x), I32Operand(y)) => x == y
    case _ => false
  }

  /** Reduction into a type's range: modulo 2^w, shifted to be centred for signed types (w the type's width in bits). */
  function Wrap(t: OperationType, x: int): (v: int)
    requires t != NopeType
    ensures InRange(t, v)
  {
    Moduli();
    match t
    case U8 => x % 0x100
    case U16 => x % 0x1_0000
    case U32 => x % 0x1_0000_0000
    case F32 => x % 0x1_0000_0000
    case I8 => (x + 0x80) % 0x100 - 0x80
    case I16 => (x + 0x8000) % 0x1_0000 - 0x8000
    case I32 => (x + 0x8000_0000) % 0x1_0000_0000 - 0x8000_0000
  }

  /** Reduction changes a value by a multiple of the type's modulus: the arithmetic wraps around. */
  lemma WrapCongruent(t: OperationType, x: int)
    requires t != NopeType
    ensures (Wrap(t, x) - x) % Modulus(t) == 0
  {
    Moduli();
    match t
    case U8 => WrapsBy8(x);
    case U16 => WrapsBy16(x);
    case U32 => WrapsBy32(x);
    case F32 => WrapsBy32(x);
    case I8 => WrapsBy8(x);
    case I16 => WrapsBy16(x);
    case I32 => WrapsBy32(x);
  }

  lemma WrapsBy8(x: int)
    ensures (x % 0x100 - x) % 0x100 == 0 && ((x + 0x80) % 0x100 - 0x80 - x) % 0x100 == 0
  {
  }

  lemma WrapsBy16(x: int)
    ensures (x % 0x1_0000 - x) % 0x1_0000 == 0 && ((x + 0x8000) % 0x1_0000 - 0x8000 - x) % 0x1_0000 == 0
  {
  }

  lemma WrapsBy32(x: int)
    ensures (x % 0x1_0000_0000 - x) % 0x1_0000_0000 == 0
    ensures ((x + 0x8000_0000) % 0x1_0000_0000 - 0x8000_0000 - x) % 0x1_0000_0000 == 0
  {
  }

  /** Two operands of the same kind, as every arithmetic operation demands. */
  predicate SameKind(a: Operand, b: Operand) {
    TypeOfOperand(a) == TypeOfOperand(b)
  }

  datatype ArithOp = AddOp | SubOp | MulOp | DivOp | RemOp

  /** The operations whose integer form panics on a zero divisor. */
  predicate Panics(op: ArithOp, a: Operand, b: Operand) {
    (op == DivOp || op == RemOp) && !b.F32Operand? && ValueOf(b) == 0
  }

  /** The exact integer result before wrapping: Rust's truncating `/` and `%`. */
  function Exact(op: ArithOp, x: int, y: int): int
    requires (op == DivOp || op == RemOp) ==> y != 0
  {
    match op
    case AddOp => x + y
    case SubOp => x - y
    case MulOp => x * y
    case DivOp => TruncDiv(x, y)
    case RemOp => TruncRem(x, y)
  }

  /**
   * `a op b` on two operands of one kind: `wrapping_*` for the integer
   * types, whose division truncates toward zero and whose `MIN / -1` wraps
   * to `MIN`; the float operation for f32, which has no remainder.
   */
  function Arith(fl: F32Ops, op: ArithOp, a: Operand, b: Operand): (r: Operand)
    requires SameKind(a, b) && !Panics(op, a, b)
    requires op == RemOp ==> !a.F32Operand?
    ensures TypeOfOperand(r) == TypeOfOperand(a)
    ensures !a.F32Operand? ==> WellFormed(r) && ValueOf(r) == Wrap(TypeOfOperand(a), Exact(op, ValueOf(a), ValueOf(b)))
  {
    var t := TypeOfOperand(a);
    if a.F32Operand? then
      match op
      case AddOp => F32Operand(fl.add(a.bits, b.bits))
      case SubOp => F32Operand(fl.sub(a.bits, b.bits))
      case MulOp => F32Operand(fl.mul(a.bits, b.bits))
      case DivOp => F32Operand(fl.div(a.bits, b.bits))
    else
      Make(t, Wrap(t, Exact(op, ValueOf(a), ValueOf(b))))
  }

  /**
   * Integer addition, subtraction and multiplication agree with the exact
   * result modulo 2^w; the f32 operations are the float parameter's.
   */
  lemma ArithWraps(fl: F32Ops, op: ArithOp, a: Operand, b: Operand)
    requires SameKind(a, b) && op in {AddOp, SubOp, MulOp}
    ensures var r := Arith(fl, op, a, b); var m := Modulus(TypeOfOperand(a));
      && (!a.F32Operand? && op == AddOp ==> (ValueOf(r) - (ValueOf(a) + ValueOf(b))) % m == 0)
      && (!a.F32Operand? && op == SubOp ==> (ValueOf(r) - (ValueOf(a) - ValueOf(b))) % m == 0)
      && (!a.F32Operand? && op == MulOp ==> (ValueOf(r) - ValueOf(a) * ValueOf(b)) % m == 0)
      && (a.F32Operand? && op == AddOp ==> r == F32Operand(fl.add(a.bits, b.bits)))
      && (a.F32Operand? && op == SubOp ==> r == F32Operand(fl.sub(a.bits, b.bits)))
      && (a.F32Operand? && op == MulOp ==> r == F32Operand(fl.mul(a.bits, b.bits)))
  {
    if !a.F32Operand? {
      WrapCongruent(TypeOfOperand(a), Exact(op, ValueOf(a), ValueOf(b)));
    }
  }

  /** Reduction leaves a value already in range unchanged. */
  lemma WrapInRange(t: OperationType, v: int)
    requires t != NopeType && InRange(t, v)
    ensures Wrap(t, v) == v
  {
    Moduli();
  }

  /** A truncated quotient of values in [lo, hi) stays there, except `lo / -1` for a negative `lo == -hi`. */
  lemma QuotientInRange(x: int, y: int, lo: int, hi: int)
    requires y != 0 && lo <= x < hi && (lo == 0 || lo == -hi) && hi > 0
    requires lo == 0 ==> y > 0
    requires !(lo < 0 && x == lo && y == -1)
    ensures lo <= TruncDiv(x, y) < hi
  {
    TruncDivMagnitude(x, y);
  }

  /** The signed maximum plus one wraps to the minimum. */
  lemma WrapHalf(t: OperationType)
    requires IsSigned(t)
    ensures Wrap(t, Modulus(t) / 2) == -(Modulus(t) / 2)
  {
    Moduli();
  }

  /** Integer division of in-range operands is exact except `MIN / -1`, which wraps to `MIN`. */
  lemma DivisionWraps(fl: F32Ops, a: Operand, b: Operand)
    requires SameKind(a, b) && WellFormed(a) && WellFormed(b) && !a.F32Operand? && ValueOf(b) != 0
    ensures var t := TypeOfOperand(a);
      ValueOf(Arith(fl, DivOp, a, b)) ==
        if IsSigned(t) && ValueOf(a) == -(Modulus(t) / 2) && ValueOf(b) == -1 then ValueOf(a)
        else TruncDiv(ValueOf(a), ValueOf(b))
  {
    var t := TypeOfOperand(a);
    var x, y := ValueOf(a), ValueOf(b);
    var m: int := Modulus(t);
    if IsSigned(t) {
      if x == -(m / 2) && y == -1 {
        assert TruncDiv(x, y) == m / 2;
        WrapHalf(t);
      } else {
        QuotientInRange(x, y, -(m / 2), m / 2);
        WrapInRange(t, TruncDiv(x, y));
      }
    } else {
      QuotientInRange(x, y, 0, m);
      WrapInRange(t, TruncDiv(x, y));
    }
  }

  /** The integer remainder of in-range operands never wraps. */
  lemma RemainderExact(fl: F32Ops, a: Operand, b: Operand)
    requires SameKind(a, b) && WellFormed(a) && WellFormed(b) && !a.F32Operand? && ValueOf(b) != 0
    ensures ValueOf(Arith(fl, RemOp, a, b)) == TruncRem(ValueOf(a), ValueOf(b))
  {
    var t := TypeOfOperand(a);
    var x, y := ValueOf(a), ValueOf(b);
    assert ValueOf(Arith(fl, RemOp, a, b)) == Wrap(t, TruncRem(x, y));
    TruncDivRem(x, y);
    Moduli();
    WrapInRange(t, TruncRem(x, y));
  }
}
