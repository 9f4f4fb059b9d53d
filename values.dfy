/**
 * shu's run-time values. Scalars and strings are values; arrays, maps and
 * upvalue cells live on the garbage-collected heap and are shared by
 * reference, so they are classes here and a `Gc` pointer is an object
 * reference. A native lambda is an object too, whose callback is an
 * uninterpreted function. Floating point is not modelled: a float is its
 * 64-bit pattern and every float operation is a parameter.
 */
module Values {
  import opened Wrappers
  import opened Bytes
  import ShuChunk

  const I64_MIN: int := -0x8000_0000_0000_0000
  const I64_MAX: int := 0x7FFF_FFFF_FFFF_FFFF

  predicate IsI64(n: int) {
    I64_MIN <= n <= I64_MAX
  }

  /** `bits as i64`: the two's-complement reading of a u64 bit pattern. */
  function ToI64(bits: nat): (n: int)
    requires bits < U64_LIMIT
    ensures IsI64(n)
    ensures n == bits || n == bits - U64_LIMIT
    ensures n >= 0 <==> bits <= I64_MAX
  {
    if bits <= I64_MAX then bits else bits - U64_LIMIT
  }

  /** The f64 operations the virtual machine uses, on bit patterns. */
  datatype FloatOps = FloatOps(
    add: (nat, nat) -> nat,
    sub: (nat, nat) -> nat,
    mul: (nat, nat) -> nat,
    div: (nat, nat) -> nat,
    rem: (nat, nat) -> nat,
    neg: nat -> nat,
    fromInt: int -> nat,
    eq: (nat, nat) -> bool,
    lt: (nat, nat) -> bool,
    gt: (nat, nat) -> bool)

  datatype Value =
    | Null
    | Bool(b: bool)
    | Int(i: int)
    | Float(bits: nat)
    | String(s: seq<u8>)
    | Array(arr: ArrayObj)
    | Map(m: MapObj)
    | Tagged(tag: seq<u8>, inner: Value)
    | Lambda(lambda: Closure)
    | NativeLambda(native: NativeLambdaObj)

  /** `Lambda`: a function's shape and chunk with the cells it captured. */
  datatype Closure = Closure(arity: nat, chunk: ShuChunk.Chunk, locals: nat, upvalues: seq<Cell>)

  /** `Upvalue`: a stack slot while the variable is live, its last value once closed. */
  datatype Upvalue = Open(slot: nat) | Closed(value: Value)

  /** `Gc<GcCell<Upvalue>>`: a cell that every lambda capturing the variable shares. */
  class Cell {
    var state: Upvalue

    constructor (state: Upvalue)
      ensures this.state == state
    {
      this.state := state;
    }
  }

  /** `NativeLambda`: a host callback from one value to one value. */
  class NativeLambdaObj {
    const call: Value -> Value

    constructor (call: Value -> Value)
      ensures this.call == call
    {
      this.call := call;
    }
  }

  /** `Array`: a growable vector of values, indexed by non-negative Int keys. */
  class ArrayObj {
    var elems: seq<Value>

    constructor ()
      ensures elems == []
    {
      elems := [];
    }

    /** `Array::get`: the element, Null past the end, None for a negative or non-Int key. */
    function Get(key: Value): (r: Option<Value>)
      reads this
      ensures r.Some? <==> key.Int? && key.i >= 0
      ensures r.Some? && key.i < |elems| ==> r.value == elems[key.i]
      ensures r.Some? && key.i >= |elems| ==> r.value == Null
    {
      if key.Int? && key.i >= 0 then
        if key.i < |elems| then Some(elems[key.i]) else Some(Null)
      else None
    }

    /** `Array::set`: replaces an element in range; anything else fails and changes nothing. */
    method Set(key: Value, value: Value) returns (ok: bool)
      modifies this
      ensures ok <==> key.Int? && 0 <= key.i < old(|elems|)
      ensures ok ==> elems == old(elems)[key.i := value] && Get(key) == Some(value)
      ensures !ok ==> elems == old(elems)
    {
      if key.Int? {
        if key.i < 0 {
          ok := false;
        } else if key.i < |elems| {
          elems := elems[key.i := value];
          ok := true;
        } else {
          ok := false;
        }
      } else {
        ok := false;
      }
    }

    /** `Array::push`. */
    method Push(value: Value)
      modifies this
      ensures elems == old(elems) + [value]
    {
      elems := elems + [value];
    }
  }

  /** `Map`: a hash map from strings to values. */
  class MapObj {
    var entries: map<seq<u8>, Value>

    constructor ()
      ensures entries == map[]
    {
      entries := map[];
    }

    /** `Map::get`: the stored value or Null for a String key, None for any other key. */
    function Get(key: Value): (r: Option<Value>)
      reads this
      ensures r.Some? <==> key.String?
      ensures r.Some? && key.s in entries ==> r.value == entries[key.s]
      ensures r.Some? && key.s !in entries ==> r.value == Null
    {
      if key.String? then
        if key.s in entries then Some(entries[key.s]) else Some(Null)
      else None
    }

    /** `Map::set`: inserts or overwrites under a String key; other keys fail and change nothing. */
    method Set(key: Value, value: Value) returns (ok: bool)
      modifies this
      ensures ok <==> key.String?
      ensures ok ==> entries == old(entries)[key.s := value] && Get(key) == Some(value)
      ensures !ok ==> entries == old(entries)
    {
      if key.String? {
        entries := entries[key.s := value];
        ok := true;
      } else {
        ok := false;
      }
    }
  }

  /** A value's own heap container, if it is one. */
  function Container(v: Value): (s: set<object>)
    ensures v.Array? ==> s == {v.arr}
    ensures v.Map? ==> s == {v.m}
    ensures !v.Array? && !v.Map? ==> s == {}
  {
    if v.Array? then {v.arr} else if v.Map? then {v.m} else {}
  }

  /** `Value::get`: array or map lookup; any other receiver gives None. */
  function Get(receiver: Value, key: Value): (r: Option<Value>)
    reads Container(receiver)
    ensures !receiver.Array? && !receiver.Map? ==> r.None?
    ensures receiver.Array? ==> r == receiver.arr.Get(key)
    ensures receiver.Map? ==> r == receiver.m.Get(key)
  {
    match receiver
    case Array(a) => a.Get(key)
    case Map(m) => m.Get(key)
    case _ => None
  }

  /** `Value::set`: array or map update; any other receiver fails and nothing changes. */
  method Set(receiver: Value, key: Value, value: Value) returns (ok: bool)
    modifies Container(receiver)
    ensures !receiver.Array? && !receiver.Map? ==> !ok
    ensures receiver.Array? ==> (ok <==> key.Int? && 0 <= key.i < old(|receiver.arr.elems|))
    ensures receiver.Array? && ok ==> receiver.arr.elems == old(receiver.arr.elems)[key.i := value]
    ensures receiver.Array? && !ok ==> receiver.arr.elems == old(receiver.arr.elems)
    ensures receiver.Map? ==> (ok <==> key.String?)
    ensures receiver.Map? && ok ==> receiver.m.entries == old(receiver.m.entries)[key.s := value]
    ensures receiver.Map? && !ok ==> receiver.m.entries == old(receiver.m.entries)
  {
    match receiver
    case Array(a) =>
      ok := a.Set(key, value);
    case Map(m) =>
      ok := m.Set(key, value);
    case _ =>
      ok := false;
  }

  // Arithmetic

  datatype ArithOp = AddOp | SubOp | MulOp | DivOp | RemOp

  /** The exact integer result of an operation, before any overflow check. */
  function IntResult(op: ArithOp, a: int, b: int): int
    requires op == DivOp || op == RemOp ==> b != 0
  {
    match op
    case AddOp => a + b
    case SubOp => a - b
    case MulOp => a * b
    case DivOp => TruncDiv(a, b)
    case RemOp => TruncRem(a, b)
  }

  /**
   * The i64 operation returns instead of panicking: no zero divisor, a result
   * that fits, and not `i64::MIN % -1`, which Rust also rejects as an overflow.
   */
  predicate IntDefined(op: ArithOp, a: int, b: int) {
    (op == DivOp || op == RemOp ==> b != 0)
    && IsI64(IntResult(op, a, b))
    && !(op == RemOp && a == I64_MIN && b == -1)
  }

  function FloatResult(fl: FloatOps, op: ArithOp, x: nat, y: nat): nat {
    match op
    case AddOp => fl.add(x, y)
    case SubOp => fl.sub(x, y)
    case MulOp => fl.mul(x, y)
    case DivOp => fl.div(x, y)
    case RemOp => fl.rem(x, y)
  }

  predicate IsNumber(v: Value) {
    v.Int? || v.Float?
  }

  /** A number as a float, an Int promoted with `as f64`. */
  function AsFloat(fl: FloatOps, v: Value): nat
    requires IsNumber(v)
  {
    if v.Int? then fl.fromInt(v.i) else v.bits
  }

  /** An Int pairing whose i64 operation would panic. */
  predicate IntPanics(op: ArithOp, left: Value, right: Value) {
    left.Int? && right.Int? && !IntDefined(op, left.i, right.i)
  }

  /** The `arithmetic!` rule: Int with Int stays Int, a Float on either side makes a Float. */
  function Arith(fl: FloatOps, op: ArithOp, left: Value, right: Value): (r: Option<Value>)
    requires !IntPanics(op, left, right)
    ensures r.Some? <==> IsNumber(left) && IsNumber(right)
    ensures r.Some? ==> (r.value.Int? <==> left.Int? && right.Int?)
    ensures r.Some? ==> (r.value.Float? <==> left.Float? || right.Float?)
    ensures r.Some? && r.value.Int? ==> IsI64(r.value.i)
    ensures left.Int? && right.Int? && op == AddOp ==> r == Some(Int(left.i + right.i))
    ensures left.Int? && right.Int? && op == SubOp ==> r == Some(Int(left.i - right.i))
    ensures left.Int? && right.Int? && op == MulOp ==> r == Some(Int(left.i * right.i))
    ensures r.Some? && r.value.Float? ==>
      r.value.bits == FloatResult(fl, op, AsFloat(fl, left), AsFloat(fl, right))
  {
    match (left, right)
    case (Int(a), Int(b)) => Some(Int(IntResult(op, a, b)))
    case (Int(a), Float(y)) => Some(Float(FloatResult(fl, op, fl.fromInt(a), y)))
    case (Float(x), Int(b)) => Some(Float(FloatResult(fl, op, x, fl.fromInt(b))))
    case (Float(x), Float(y)) => Some(Float(FloatResult(fl, op, x, y)))
    case _ => None
  }

  /** `Value::add`: two strings concatenate; everything else is arithmetic. */
  function Add(fl: FloatOps, left: Value, right: Value): (r: Option<Value>)
    requires !IntPanics(AddOp, left, right)
    ensures left.String? && right.String? ==> r == Some(String(left.s + right.s))
    ensures !(left.String? && right.String?) ==> r == Arith(fl, AddOp, left, right)
  {
    if left.String? && right.String? then Some(String(left.s + right.s))
    else Arith(fl, AddOp, left, right)
  }

  /** `neg` of an Int whose negation leaves i64 (that is, `i64::MIN`) overflows. */
  predicate NegPanics(v: Value) {
    v.Int? && !IsI64(-v.i)
  }

  /** `Value::neg`: defined on numbers only. */
  function Neg(fl: FloatOps, v: Value): (r: Option<Value>)
    requires !NegPanics(v)
    ensures r.Some? <==> IsNumber(v)
    ensures v.Int? ==> r == Some(Int(-v.i)) && IsI64(-v.i)
    ensures v.Float? ==> r == Some(Float(fl.neg(v.bits)))
  {
    match v
    case Int(i) => Some(Int(-i))
    case Float(x) => Some(Float(fl.neg(x)))
    case _ => None
  }

  /** `Value::not`: defined on booleans only. */
  function Not(v: Value): (r: Option<Value>)
    ensures r.Some? <==> v.Bool?
    ensures v.Bool? ==> r == Some(Bool(!v.b))
  {
    if v.Bool? then Some(Bool(!v.b)) else None
  }

  /** `Value::eql`: always a Bool; structural on scalars and strings, identity on containers. */
  function Eql(fl: FloatOps, left: Value, right: Value): (r: Value)
    ensures r.Bool?
    ensures left.Null? && right.Null? ==> r.b
    ensures left.Bool? && right.Bool? ==> (r.b <==> left.b == right.b)
    ensures left.Int? && right.Int? ==> (r.b <==> left.i == right.i)
    ensures left.Float? && right.Float? ==> (r.b <==> fl.eq(left.bits, right.bits))
    ensures left.String? && right.String? ==> (r.b <==> left.s == right.s)
    ensures left.Array? && right.Array? ==> (r.b <==> left.arr == right.arr)
    ensures left.Map? && right.Map? ==> (r.b <==> left.m == right.m)
    ensures r.b ==> Kind(left) == Kind(right)
    ensures left.Tagged? || left.Lambda? || left.NativeLambda? ==> !r.b
  {
    match (left, right)
    case (Null, Null) => Bool(true)
    case (Bool(a), Bool(b)) => Bool(a == b)
    case (Int(a), Int(b)) => Bool(a == b)
    case (Float(x), Float(y)) => Bool(fl.eq(x, y))
    case (String(a), String(b)) => Bool(a == b)
    case (Array(a), Array(b)) => Bool(a == b)
    case (Map(a), Map(b)) => Bool(a == b)
    case _ => Bool(false)
  }

  /** The variant a value belongs to. */
  function Kind(v: Value): nat {
    match v
    case Null => 0
    case Bool(_) => 1
    case Int(_) => 2
    case Float(_) => 3
    case String(_) => 4
    case Array(_) => 5
    case Map(_) => 6
    case Tagged(_, _) => 7
    case Lambda(_) => 8
    case NativeLambda(_) => 9
  }

  /** `Value::neq`: the negation of `eql`. */
  function Neq(fl: FloatOps, left: Value, right: Value): (r: Value)
    ensures r == Bool(!Eql(fl, left, right).b)
  {
    match Eql(fl, left, right)
    case Bool(b) => Bool(!b)
  }

  datatype CmpOp = GtOp | LtOp

  /** The `comparison!` rule: numbers only, an Int promoted when paired with a Float. */
  function Compare(fl: FloatOps, op: CmpOp, left: Value, right: Value): (r: Option<Value>)
    ensures r.Some? <==> IsNumber(left) && IsNumber(right)
    ensures r.Some? ==> r.value.Bool?
    ensures left.Int? && right.Int? ==> r == Some(Bool(if op == GtOp then left.i > right.i else left.i < right.i))
    ensures r.Some? && !(left.Int? && right.Int?) ==>
      r.value.b == (if op == GtOp then fl.gt else fl.lt)(AsFloat(fl, left), AsFloat(fl, right))
  {
    match (left, right)
    case (Int(a), Int(b)) => Some(Bool(if op == GtOp then a > b else a < b))
    case (Int(a), Float(y)) => Some(Bool((if op == GtOp then fl.gt else fl.lt)(fl.fromInt(a), y)))
    case (Float(x), Int(b)) => Some(Bool((if op == GtOp then fl.gt else fl.lt)(x, fl.fromInt(b))))
    case (Float(x), Float(y)) => Some(Bool((if op == GtOp then fl.gt else fl.lt)(x, y)))
    case _ => None
  }

  function Gtn(fl: FloatOps, left: Value, right: Value): Option<Value> {
    Compare(fl, GtOp, left, right)
  }

  function Ltn(fl: FloatOps, left: Value, right: Value): Option<Value> {
    Compare(fl, LtOp, left, right)
  }

  /** `Value::gte`: the negation of `ltn`, not a comparison of its own. */
  function Gte(fl: FloatOps, left: Value, right: Value): (r: Option<Value>)
    ensures r.Some? <==> Ltn(fl, left, right).Some?
    ensures r.Some? ==> r == Some(Bool(!Ltn(fl, left, right).value.b))
  {
    match Ltn(fl, left, right)
    case Some(Bool(b)) => Some(Bool(!b))
    case None => None
  }

  /** `Value::lte`: the negation of `gtn`. */
  function Lte(fl: FloatOps, left: Value, right: Value): (r: Option<Value>)
    ensures r.Some? <==> Gtn(fl, left, right).Some?
    ensures r.Some? ==> r == Some(Bool(!Gtn(fl, left, right).value.b))
  {
    match Gtn(fl, left, right)
    case Some(Bool(b)) => Some(Bool(!b))
    case None => None
  }

  // Properties

  /** On integers the derived orderings are the usual ones. */
  lemma IntOrderings(fl: FloatOps, a: int, b: int)
    ensures Gte(fl, Int(a), Int(b)) == Some(Bool(a >= b))
    ensures Lte(fl, Int(a), Int(b)) == Some(Bool(a <= b))
  {
  }

  /** `eql` is symmetric whenever float equality is. */
  lemma EqlSymmetric(fl: FloatOps, left: Value, right: Value)
    requires forall x: nat, y: nat :: fl.eq(x, y) == fl.eq(y, x)
    ensures Eql(fl, left, right) == Eql(fl, right, left)
  {
  }

  /** Every value except a float, a tagged value or a lambda equals itself. */
  lemma EqlReflexive(fl: FloatOps, v: Value)
    requires !v.Float? && !v.Tagged? && !v.Lambda? && !v.NativeLambda?
    ensures Eql(fl, v, v) == Bool(true)
  {
  }

  /** Different variants are never equal, Int and Float included. */
  lemma EqlAcrossVariants(fl: FloatOps, left: Value, right: Value)
    requires Kind(left) != Kind(right)
    ensures Eql(fl, left, right) == Bool(false) && Neq(fl, left, right) == Bool(true)
  {
  }
}
