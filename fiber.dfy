/**
 * A shu `Fiber`: the chunk being executed, the instruction pointer, the base
 * pointer of the current call and the stack. `Step` decodes the instruction
 * at the instruction pointer, moves the pointer past it and runs the handler
 * of its opcode; each handler's contract states that opcode's effect.
 */
module ShuFiber {
  import opened Wrappers
  import opened Bytes
  import Opcodes
  import opened ShuChunk
  import opened Values
  import opened FiberStack
  import opened Registry

  /**
   * Why a step failed. `Panic` is not a reason of the source: it stands for
   * the places where the Rust code panics (an i64 operation that overflows or
   * divides by zero, or a usize addition or subtraction that leaves range).
   */
  datatype Reason =
    | Parse
    | InvalidCode(offset: nat)
    | InvalidOpcode(code: nat)
    | InvalidData(index: nat)
    | InvalidUpvalue(index: nat)
    | InvalidNativeLambda(id: nat)
    | WrongConstantType
    | EmptyFrameStack
    | EmptyStack
    | Type
    | InvalidKey(key: Value)
    | InvalidTag(tag: Value)
    | ValueNotCallable(callee: Value)
    | WrongArity
    | Panic

  datatype Status = Done | Running | Yield

  /** The operations of the `binary!` handlers. */
  datatype BinaryOp = AddB | SubB | MulB | DivB | RemB | GtnB | GteB | LtnB | LteB

  function ArithOf(op: BinaryOp): ArithOp
    requires op in {AddB, SubB, MulB, DivB, RemB}
  {
    match op
    case AddB => AddOp
    case SubB => SubOp
    case MulB => MulOp
    case DivB => DivOp
    case RemB => RemOp
  }

  /** The i64 arithmetic of a binary handler would panic on these operands. */
  predicate BinaryPanics(op: BinaryOp, left: Value, right: Value) {
    op in {AddB, SubB, MulB, DivB, RemB} && IntPanics(ArithOf(op), left, right)
  }

  /** What `left.op(&right)` returns; None becomes a Type error. */
  function BinaryResult(fl: FloatOps, op: BinaryOp, left: Value, right: Value): Option<Value>
    requires !BinaryPanics(op, left, right)
  {
    match op
    case AddB => Add(fl, left, right)
    case GtnB => Gtn(fl, left, right)
    case GteB => Gte(fl, left, right)
    case LtnB => Ltn(fl, left, right)
    case LteB => Lte(fl, left, right)
    case _ => Arith(fl, ArithOf(op), left, right)
  }

  /** The heap objects a value refers to directly: its container, or a lambda's cells. */
  function Held(v: Value): (r: set<object>)
    ensures forall o :: o in r ==> o is ArrayObj || o is MapObj || o is Cell
  {
    match v
    case Array(a) => {a}
    case Map(m) => {m}
    case Lambda(l) => set c | c in l.upvalues
    case _ => {}
  }

  function HeldAll(vals: seq<Value>): (r: set<object>)
    ensures forall i :: 0 <= i < |vals| ==> Held(vals[i]) <= r
    ensures forall o :: o in r ==> o is ArrayObj || o is MapObj || o is Cell
  {
    if vals == [] then {} else HeldAll(vals[..|vals| - 1]) + Held(vals[|vals| - 1])
  }

  function Nulls(n: nat): (s: seq<Value>)
    ensures |s| == n && forall i :: 0 <= i < n ==> s[i] == Null
  {
    seq(n, _ => Null)
  }

  function Min(a: nat, b: nat): nat {
    if a <= b then a else b
  }

  /** An instruction as `step` sees it: the opcode, its operand and the offset just past it. */
  datatype Instr = Instr(opcode: Opcodes.Opcode, operand: nat, next: nat)

  /** The instruction at ip when it decodes, None when `next_op` or the opcode lookup fails. */
  function Fetch(chunk: Chunk, ip: nat): (r: Option<Instr>)
    ensures r.Some? <==> OpAt(chunk, ip).Some? && OpcodeOf(OpAt(chunk, ip).value.byte).Some?
    ensures r.Some? ==>
      r.value.opcode == OpcodeOf(OpAt(chunk, ip).value.byte).value
      && r.value.operand == OpAt(chunk, ip).value.operand && r.value.operand < U64_LIMIT
      && r.value.next == ip + 1 + Size(OpAt(chunk, ip).value.byte)
  {
    match OpAt(chunk, ip)
    case None => None
    case Some(op) =>
      match OpcodeOf(op.byte)
      case None => None
      case Some(opcode) => Some(Instr(opcode, op.operand, ip + 1 + Size(op.byte)))
  }

  /**
   * The opcodes whose effect depends only on the values, the chunk's
   * constants and the registry: every opcode but those that allocate,
   * touch upvalue cells or containers, call or return.
   */
  predicate ValueOp(opcode: Opcodes.Opcode) {
    !(opcode.Arr? || opcode.Map? || opcode.Lmd? || opcode.Lou? || opcode.Sau? || opcode.Clu?
      || opcode.Get? || opcode.Set? || opcode.Apn? || opcode.Cal? || opcode.Ret?)
  }

  /** The opcode pushes a constant. */
  predicate ConstantOp(o: Opcodes.Opcode) {
    o.Nul? || o.Tru? || o.Fls? || o.Flt? || o.Int? || o.Str? || o.Nal?
  }

  /** The opcode works on a local slot or shuffles the stack. */
  predicate AccessOp(o: Opcodes.Opcode) {
    o.Pop? || o.Lod? || o.Sav? || o.Dup? || o.Swp? || o.Rot?
  }

  /** The opcode jumps. */
  predicate JumpOp(o: Opcodes.Opcode) {
    o.Jmp? || o.Jit? || o.Jif?
  }

  /** The opcode is arithmetic or an ordering. */
  predicate ArithmeticOp(o: Opcodes.Opcode) {
    o.Add? || o.Sub? || o.Mul? || o.Div? || o.Rem? || o.Neg? || o.Gtn? || o.Gte? || o.Ltn? || o.Lte?
  }

  /** The opcode is an equality, logical or tag opcode. */
  predicate LogicOp(o: Opcodes.Opcode) {
    o.Eql? || o.Neq? || o.Not? || o.Tag? || o.Utg? || o.Gtg?
  }

  /** The opcode allocates a container or a lambda. */
  predicate AllocOp(o: Opcodes.Opcode) {
    o.Arr? || o.Map? || o.Lmd?
  }

  /** The opcode reads, writes or closes an upvalue cell. */
  predicate UpvalueOp(o: Opcodes.Opcode) {
    o.Lou? || o.Sau? || o.Clu?
  }

  /** The opcode reads or writes a container. */
  predicate ContainerOp(o: Opcodes.Opcode) {
    o.Get? || o.Set? || o.Apn?
  }

  /** The `binary!` operation an arithmetic or comparison opcode names. */
  function BinaryOf(opcode: Opcodes.Opcode): BinaryOp
    requires ArithmeticOp(opcode) && !opcode.Neg?
  {
    match opcode
    case Add => AddB
    case Sub => SubB
    case Mul => MulB
    case Div => DivB
    case Rem => RemB
    case Gtn => GtnB
    case Gte => GteB
    case Ltn => LtnB
    case Lte => LteB
  }

  /** A handler's result pushed on the rest of the stack; an undefined result is a `Type` error. */
  function PushedOn(v: Option<Value>, rest: seq<Value>, next: nat): Result<(seq<Value>, nat), Reason> {
    match v
    case Some(x) => Ok((rest + [x], next))
    case None => Err(Type)
  }

  /**
   * One step of a value opcode: from the values `vs`, the base pointer and
   * the offset `next` after the instruction, the new values and the new ip,
   * or the error the handler returns.
   */
  function ValueStep(fl: FloatOps, natives: seq<NativeLambdaObj>, data: seq<Constant>, i: Instr, vs: seq<Value>, bp: nat)
    : Result<(seq<Value>, nat), Reason>
    requires ValueOp(i.opcode) && i.operand < U64_LIMIT
  {
    if ConstantOp(i.opcode) then ConstantStep(natives, data, i, vs)
    else if AccessOp(i.opcode) then AccessStep(i, vs, bp)
    else if JumpOp(i.opcode) then JumpStep(i, vs)
    else if ArithmeticOp(i.opcode) then ArithmeticStep(fl, i, vs)
    else LogicStep(fl, i, vs)
  }

  /** A constant opcode pushes its value, or fails on a bad data or registry index. */
  function ConstantStep(natives: seq<NativeLambdaObj>, data: seq<Constant>, i: Instr, vs: seq<Value>)
    : Result<(seq<Value>, nat), Reason>
    requires ConstantOp(i.opcode) && i.operand < U64_LIMIT
  {
    var operand := i.operand;
    var next := i.next;
    match i.opcode
    case Nul => Ok((vs + [Null], next))
    case Tru => Ok((vs + [Bool(true)], next))
    case Fls => Ok((vs + [Bool(false)], next))
    case Flt => Ok((vs + [Float(operand)], next))
    case Int => Ok((vs + [Int(ToI64(operand))], next))
    case Str =>
      if operand >= |data| then Err(InvalidData(operand))
      else if !data[operand].Text? then Err(WrongConstantType)
      else Ok((vs + [String(data[operand].text)], next))
    case Nal =>
      if operand >= |natives| then Err(InvalidNativeLambda(operand))
      else Ok((vs + [NativeLambda(natives[operand])], next))
  }

  /** `pop`, a local slot load or store relative to the base pointer, or a stack shuffle. */
  function AccessStep(i: Instr, vs: seq<Value>, bp: nat): Result<(seq<Value>, nat), Reason>
    requires AccessOp(i.opcode) && i.operand < U64_LIMIT
  {
    var n := |vs|;
    var operand := i.operand;
    var next := i.next;
    match i.opcode
    case Pop => if n == 0 then Err(EmptyStack) else Ok((vs[..n - 1], next))
    case Lod =>
      if bp + operand >= U64_LIMIT then Err(Panic)
      else if bp + operand >= n then Err(EmptyStack)
      else Ok((vs + [vs[bp + operand]], next))
    case Sav =>
      if n == 0 then Err(EmptyStack)
      else if bp + operand >= U64_LIMIT then Err(Panic)
      else if bp + operand >= n then Err(EmptyStack)
      else Ok((vs[bp + operand := vs[n - 1]], next))
    case Dup => if n == 0 then Err(EmptyStack) else Ok((vs + [vs[n - 1]], next))
    case Swp => if n < 2 then Err(EmptyStack) else Ok((vs[..n - 2] + [vs[n - 1], vs[n - 2]], next))
    case Rot => if n < 3 then Err(EmptyStack) else Ok((vs[..n - 3] + [vs[n - 1], vs[n - 3], vs[n - 2]], next))
  }

  /** `jmp` goes to its operand; `jit` and `jif` pop and go there only on exactly `true` or `false`. */
  function JumpStep(i: Instr, vs: seq<Value>): Result<(seq<Value>, nat), Reason>
    requires JumpOp(i.opcode)
  {
    var n := |vs|;
    var operand := i.operand;
    var next := i.next;
    match i.opcode
    case Jmp => Ok((vs, operand))
    case Jit => if n == 0 then Err(EmptyStack) else Ok((vs[..n - 1], if vs[n - 1] == Bool(true) then operand else next))
    case Jif => if n == 0 then Err(EmptyStack) else Ok((vs[..n - 1], if vs[n - 1] == Bool(false) then operand else next))
  }

  /** `neg` on the top value, or a `binary!` operation on the top two. */
  function ArithmeticStep(fl: FloatOps, i: Instr, vs: seq<Value>): Result<(seq<Value>, nat), Reason>
    requires ArithmeticOp(i.opcode)
  {
    var n := |vs|;
    var next := i.next;
    if i.opcode.Neg? then
      if n == 0 then Err(EmptyStack)
      else if NegPanics(vs[n - 1]) then Err(Panic)
      else PushedOn(Neg(fl, vs[n - 1]), vs[..n - 1], next)
    else
      var op := BinaryOf(i.opcode);
      if n < 2 then Err(EmptyStack)
      else if BinaryPanics(op, vs[n - 2], vs[n - 1]) then Err(Panic)
      else PushedOn(BinaryResult(fl, op, vs[n - 2], vs[n - 1]), vs[..n - 2], next)
  }

  /** Equality, `not`, and making, unwrapping or reading a tag. */
  function LogicStep(fl: FloatOps, i: Instr, vs: seq<Value>): Result<(seq<Value>, nat), Reason>
    requires LogicOp(i.opcode)
  {
    var n := |vs|;
    var next := i.next;
    match i.opcode
    case Not => if n == 0 then Err(EmptyStack) else PushedOn(Not(vs[n - 1]), vs[..n - 1], next)
    case Eql => if n < 2 then Err(EmptyStack) else Ok((vs[..n - 2] + [Eql(fl, vs[n - 2], vs[n - 1])], next))
    case Neq => if n < 2 then Err(EmptyStack) else Ok((vs[..n - 2] + [Neq(fl, vs[n - 2], vs[n - 1])], next))
    case Tag =>
      if n == 0 then Err(EmptyStack)
      else if !vs[n - 1].String? then Err(InvalidTag(vs[n - 1]))
      else if n < 2 then Err(EmptyStack)
      else Ok((vs[..n - 2] + [Tagged(vs[n - 1].s, vs[n - 2])], next))
    case Utg =>
      if n == 0 then Err(EmptyStack)
      else if vs[n - 1].Tagged? then Ok((vs[..n - 1] + [vs[n - 1].inner], next))
      else Err(Type)
    case Gtg =>
      if n == 0 then Err(EmptyStack)
      else Ok((vs[..n - 1] + [if vs[n - 1].Tagged? then String(vs[n - 1].tag) else Null], next))
  }

  /** How many values a value opcode adds to the stack (negative: removes) when it succeeds. */
  function Depth(opcode: Opcodes.Opcode): int {
    if ConstantOp(opcode) || opcode.Lod? || opcode.Dup? then 1
    else if opcode.Sav? || opcode.Jmp? || opcode.Swp? || opcode.Rot? || opcode.Neg? || opcode.Not?
      || opcode.Utg? || opcode.Gtg? then 0
    else -1
  }

  /**
   * Every value opcode that succeeds changes the stack depth by its `Depth`,
   * and only the three jumps move ip anywhere but past the instruction.
   * An opcode that takes values fails with `EmptyStack` on an empty stack.
   */
  lemma ValueStepEffect(fl: FloatOps, natives: seq<NativeLambdaObj>, data: seq<Constant>, i: Instr, vs: seq<Value>, bp: nat)
    requires ValueOp(i.opcode) && i.operand < U64_LIMIT
    ensures var e := ValueStep(fl, natives, data, i, vs, bp);
      (e.Ok? ==> |e.value.0| == |vs| + Depth(i.opcode))
      && (e.Ok? && !JumpOp(i.opcode) ==> e.value.1 == i.next)
      && (e.Ok? && i.opcode == Opcodes.Jmp ==> e.value.1 == i.operand)
      && (vs == [] && Depth(i.opcode) <= 0 && i.opcode != Opcodes.Jmp ==> e == Err(EmptyStack))
  {
  }

  /** A handler's result, values and ip are those `ValueStep` gives: its error, or its values and ip. */
  predicate Agrees(r: Result<(), Reason>, e: Result<(seq<Value>, nat), Reason>, vals: seq<Value>, ip: nat) {
    (e.Err? ==> r == Err(e.error)) && (e.Ok? ==> r.Ok? && vals == e.value.0 && ip == e.value.1)
  }

  /** A step's result with the status forgotten. */
  function Unit(r: Result<Status, Reason>): Result<(), Reason> {
    if r.Ok? then Ok(()) else Err(r.error)
  }

  class Fiber {
    const registry: NativeLambdaRegistry
    const floats: FloatOps
    var chunk: Chunk
    var ip: nat
    var bp: nat
    const stack: Stack

    ghost predicate Valid()
      reads stack, stack.upvalues
    {
      stack.Valid()
    }

    /** Nothing but the value stack changed. */
    twostate predicate SameFrame()
      reads this, stack
    {
      chunk == old(chunk) && ip == old(ip) && bp == old(bp)
      && stack.frames == old(stack.frames) && stack.upvalues == old(stack.upvalues)
    }

    /** The heap objects the fiber reaches in one hop: those its values hold and its registered cells. */
    ghost function Objects(): (r: set<object>)
      reads stack
      ensures forall o :: o in r ==> o is ArrayObj || o is MapObj || o is Cell
    {
      HeldAll(stack.values) + set c | c in stack.upvalues
    }

    /** The registered cells open on a slot in [low, high). */
    ghost function OpenOn(low: nat, high: nat): set<object>
      reads stack, stack.upvalues
    {
      set c | c in stack.upvalues && c.state.Open? && low <= c.state.slot < high
    }

    /**
     * Every object the fiber reached before, but those in changed, is as it
     * was (each of them was allocated then; Dafny is told so explicitly).
     */
    twostate predicate Untouched(changed: set<object>)
      reads *
    {
      forall o :: o in old(Objects()) && old(allocated(o)) && o !in changed ==> unchanged(o)
    }

    /**
     * `Fiber::new`: the main function as a lambda without upvalues in slot 0,
     * a Null for each of its locals, and no frames.
     */
    constructor (registry: NativeLambdaRegistry, main: Function, floats: FloatOps)
      ensures Valid() && fresh(stack)
      ensures this.registry == registry && this.floats == floats
      ensures chunk == main.chunk && ip == 0 && bp == 0
      ensures stack.values == [Lambda(Closure(main.arity, main.chunk, main.locals, []))] + Nulls(main.locals)
      ensures stack.frames == [] && stack.upvalues == []
    {
      var s := new Stack();
      s.Push(Lambda(Closure(main.arity, main.chunk, main.locals, [])));
      for i := 0 to main.locals
        invariant s.values == [Lambda(Closure(main.arity, main.chunk, main.locals, []))] + Nulls(i)
        invariant s.frames == [] && s.upvalues == [] && s.Valid()
      {
        s.Push(Null);
        assert Nulls(i) + [Null] == Nulls(i + 1);
      }
      this.registry := registry;
      this.floats := floats;
      chunk := main.chunk;
      ip := 0;
      bp := 0;
      stack := s;
    }

    /**
     * `step`: decode the instruction at ip, then `Execute` it. A bad ip or
     * byte is the error `next_op` or the opcode conversion gives.
     */
    method Step() returns (r: Result<Status, Reason>)
      requires Valid()
      modifies this, stack, stack.upvalues, HeldAll(stack.values)
      ensures Valid()
      ensures OpAt(old(chunk), old(ip)).None? ==> r == Err(InvalidCode(old(ip)))
      ensures OpAt(old(chunk), old(ip)).Some? && OpcodeOf(OpAt(old(chunk), old(ip)).value.byte).None? ==>
        r == Err(InvalidOpcode(RawCode(OpAt(old(chunk), old(ip)).value.byte)))
      ensures Fetch(old(chunk), old(ip)).Some? ==> Executed(Fetch(old(chunk), old(ip)).value, r)
    {
      hide Executed;
      var fetched := Fetch(chunk, ip);
      if fetched.None? {
        var next := NextOp();
        if next.Err? {
          return Err(next.error);
        }
        return Err(InvalidOpcode(RawCode(next.value.byte)));
      }
      r := Execute(fetched.value);
    }

    /**
     * What one instruction does: a successful step of any opcode but `ret`
     * is `Running`, only `ret` with no frame is `Done`, none yields; what
     * each opcode does to the values, ip, frames and heap is the two-state
     * predicate of its group, stated from the state before the step.
     */
    twostate predicate Executed(i: Instr, new r: Result<Status, Reason>)
      requires i.operand < U64_LIMIT
      reads *
    {
      (i.opcode != Opcodes.Ret && r.Ok? ==> r.value == Running)
      && (r == Ok(Done) <==> i.opcode == Opcodes.Ret && old(stack.frames) == [])
      && r != Ok(Yield)
      && (ValueOp(i.opcode) ==> ValueStepped(i, Unit(r)))
      && (AllocOp(i.opcode) ==> AllocStepped(i, Unit(r)))
      && (UpvalueOp(i.opcode) ==> UpvalueStepped(i, Unit(r)))
      && (ContainerOp(i.opcode) ==> ContainerStepped(i, Unit(r)))
      && (i.opcode == Opcodes.Cal ==> CallStepped(i, Unit(r)))
      && (i.opcode == Opcodes.Ret ==> ReturnStepped(i, r))
    }

    /** `next_op` and the handler of the fetched instruction's opcode. */
    method Execute(i: Instr) returns (r: Result<Status, Reason>)
      requires Valid() && Fetch(chunk, ip) == Some(i)
      modifies this, stack, stack.upvalues, HeldAll(stack.values)
      ensures Valid() && Executed(i, r)
    {
      hide Valid, ValueStepped, AllocStepped, UpvalueStepped, ContainerStepped, CallStepped, ReturnStepped, ValueStep;
      if i.opcode == Opcodes.Ret {
        r := ExecuteReturn(i);
        return;
      }
      var u;
      if AllocOp(i.opcode) {
        u := ExecuteAlloc(i);
      } else if UpvalueOp(i.opcode) {
        u := ExecuteUpvalue(i);
      } else if ContainerOp(i.opcode) {
        u := ExecuteContainer(i);
      } else if i.opcode == Opcodes.Cal {
        u := ExecuteCall(i);
      } else {
        u := ExecuteValue(i);
      }
      if u.Err? {
        return Err(u.error);
      }
      r := Ok(Running);
      assert u.value == ();
    }

    /** `next_op` and the handler of a value opcode, by its group. */
    method ExecuteValue(i: Instr) returns (r: Result<(), Reason>)
      requires Valid() && Fetch(chunk, ip) == Some(i) && ValueOp(i.opcode)
      modifies this, stack
      ensures Valid() && ValueStepped(i, r)
    {
      hide Valid, ValueStepped;
      if ConstantOp(i.opcode) {
        r := ExecuteConstant(i);
      } else if AccessOp(i.opcode) {
        r := ExecuteAccess(i);
      } else if JumpOp(i.opcode) {
        r := ExecuteJump(i);
      } else if ArithmeticOp(i.opcode) {
        r := ExecuteOperation(i);
      } else {
        r := ExecuteLogic(i);
      }
    }

    /**
     * A value opcode's step: the values and ip `ValueStep` gives, or its
     * error; chunk, base pointer, frames and every object it reaches unchanged.
     */
    twostate predicate ValueStepped(i: Instr, new r: Result<(), Reason>)
      requires ValueOp(i.opcode) && i.operand < U64_LIMIT
      reads *
    {
      Agrees(r, ValueStep(floats, registry.lambdas, old(chunk).data, i, old(stack.values), old(bp)), stack.values, ip)
      && chunk == old(chunk) && bp == old(bp) && stack.frames == old(stack.frames) && stack.upvalues == old(stack.upvalues)
      && Untouched({})
    }

    /**
     * `arr`, `map` and `lmd`: ip moves past the instruction, the frames stay
     * and no object the fiber reached changes; `arr` and `map` push a new
     * empty container, `lmd` a lambda capturing each descriptor.
     */
    twostate predicate AllocStepped(i: Instr, new r: Result<(), Reason>)
      requires AllocOp(i.opcode)
      reads *
    {
      var vs := old(stack.values); var n := |vs|; var index := i.operand; var data := old(chunk).data;
      chunk == old(chunk) && bp == old(bp) && ip == i.next && stack.frames == old(stack.frames)
      && (!i.opcode.Lmd? ==> stack.upvalues == old(stack.upvalues))
      && Untouched({})
      && ((i.opcode.Arr? || i.opcode.Map?) ==> r.Ok? && |stack.values| == n + 1 && stack.values[..n] == vs)
      && (i.opcode == Opcodes.Arr ==> stack.values[n].Array? && fresh(stack.values[n].arr) && stack.values[n].arr.elems == [])
      && (i.opcode == Opcodes.Map ==> stack.values[n].Map? && fresh(stack.values[n].m) && stack.values[n].m.entries == map[])
      && (i.opcode == Opcodes.Lmd ==>
        |old(stack.upvalues)| <= |stack.upvalues| && stack.upvalues[..|old(stack.upvalues)|] == old(stack.upvalues)
        && (forall c :: c in stack.upvalues && c !in old(stack.upvalues) ==> fresh(c))
        && (index >= |data| ==> r == Err(InvalidData(index)))
        && (index < |data| && !data[index].Fun? ==> r == Err(WrongConstantType))
        && (index < |data| && data[index].Fun? ==>
          var ds := data[index].fn.upvalues;
          (r.Ok? <==> forall k :: 0 <= k < |ds| ==> CaptureError(ds[k], vs).None?)
          && (r.Err? ==> exists k :: (0 <= k < |ds| && CaptureError(ds[k], vs) == Some(r.error)
                && forall j :: 0 <= j < k ==> CaptureError(ds[j], vs).None?)))
        && (r.Ok? ==>
          index < |data| && data[index].Fun? &&
          var f := data[index].fn;
          |stack.values| == n + 1 && stack.values[..n] == vs && stack.values[n].Lambda?
          && var l := stack.values[n].lambda;
          l.arity == f.arity && l.chunk == f.chunk && l.locals == f.locals && |l.upvalues| == |f.upvalues|
          && forall k :: 0 <= k < |f.upvalues| ==> Captures(f.upvalues[k], l.upvalues[k], vs)))
    }

    /**
     * `lou`, `sau` and `clu`: ip moves past the instruction and the frames
     * stay; `lou` pushes the upvalue's value, `sau` stores through it, `clu`
     * pops the top value and closes the cell open on its slot. No object the
     * fiber reached changes but the cell `sau` stores into and the cell `clu`
     * closes.
     */
    twostate predicate UpvalueStepped(i: Instr, new r: Result<(), Reason>)
      requires UpvalueOp(i.opcode)
      reads *
    {
      var vs := old(stack.values); var n := |vs|; var index := i.operand;
      chunk == old(chunk) && bp == old(bp) && ip == i.next && stack.frames == old(stack.frames)
      && (!i.opcode.Clu? ==> stack.upvalues == old(stack.upvalues))
      && Untouched(
        if i.opcode.Sau? && old(CurrentCell(index)).Ok? then {old(CurrentCell(index)).value}
        else if i.opcode.Clu? && n != 0 then old(OpenOn(n - 1, n))
        else {})
      && (i.opcode == Opcodes.Lou ==>
        (old(CurrentCell(index)).Err? ==> r == Err(old(CurrentCell(index)).error))
        && (old(CurrentCell(index)).Ok? ==>
          var cell := old(CurrentCell(index)).value;
          match old(cell.state)
          case Open(slot) =>
            if slot < n then r.Ok? && stack.values == vs + [vs[slot]] else r == Err(EmptyStack)
          case Closed(v) => r.Ok? && stack.values == vs + [v]))
      && (i.opcode == Opcodes.Sau ==>
        (old(CurrentCell(index)).Err? ==> r == Err(old(CurrentCell(index)).error))
        && (old(CurrentCell(index)).Ok? && n == 0 ==> r == Err(EmptyStack))
        && (old(CurrentCell(index)).Ok? && n != 0 ==>
          var cell := old(CurrentCell(index)).value;
          var top := vs[n - 1];
          match old(cell.state)
          case Open(slot) =>
            if slot < n then r.Ok? && stack.values == vs[slot := top] && cell.state == old(cell.state)
            else r == Err(EmptyStack)
          case Closed(_) => r.Ok? && stack.values == vs && cell.state == Closed(top)))
      && (i.opcode == Opcodes.Clu ==>
        (n == 0 ==> r == Err(EmptyStack))
        && (n != 0 ==>
          r.Ok? && stack.values == vs[..n - 1]
          && (forall c :: c in stack.upvalues ==> c in old(stack.upvalues))
          && forall k :: 0 <= k < |old(stack.upvalues)| ==>
            var c := old(stack.upvalues)[k];
            if old(c.state) == Open(n - 1) then c.state == Closed(vs[n - 1]) && c !in stack.upvalues
            else c.state == old(c.state) && c in stack.upvalues))
    }

    /**
     * `get`, `set` and `apn`: ip moves past the instruction and nothing but
     * the values and the container `set` or `apn` stores into changes; the
     * lookup, the store and the append are those of `Values`.
     */
    twostate predicate ContainerStepped(i: Instr, new r: Result<(), Reason>)
      requires ContainerOp(i.opcode)
      reads *
    {
      var vs := old(stack.values); var n := |vs|;
      chunk == old(chunk) && bp == old(bp) && ip == i.next && stack.frames == old(stack.frames)
      && stack.upvalues == old(stack.upvalues)
      && Untouched(if i.opcode.Set? then old(Under(3)) else if i.opcode.Apn? then old(Under(2)) else {})
      && (i.opcode == Opcodes.Get ==>
        (n < 2 ==> r == Err(EmptyStack))
        && (n >= 2 ==>
          match old(Get(vs[n - 2], vs[n - 1]))
          case Some(v) => r.Ok? && stack.values == vs[..n - 2] + [v]
          case None => r == Err(InvalidKey(vs[n - 1]))))
      && (i.opcode == Opcodes.Set ==>
        (n < 3 ==> r == Err(EmptyStack))
        && (n >= 3 ==>
          var receiver, value, key := vs[n - 3], vs[n - 2], vs[n - 1];
          (receiver.Array? ==>
            if key.Int? && 0 <= key.i < |old(receiver.arr.elems)| then
              r.Ok? && receiver.arr.elems == old(receiver.arr.elems)[key.i := value]
            else r == Err(InvalidKey(key)) && receiver.arr.elems == old(receiver.arr.elems))
          && (receiver.Map? ==>
            if key.String? then r.Ok? && receiver.m.entries == old(receiver.m.entries)[key.s := value]
            else r == Err(InvalidKey(key)) && receiver.m.entries == old(receiver.m.entries))
          && (!receiver.Array? && !receiver.Map? ==> r == Err(InvalidKey(key)))
          && (r.Ok? ==> stack.values == vs[..n - 3] + [value])))
      && (i.opcode == Opcodes.Apn ==>
        (n < 2 ==> r == Err(EmptyStack))
        && (n >= 2 ==>
          if vs[n - 2].Array? then
            r.Ok? && vs[n - 2].arr.elems == old(vs[n - 2].arr.elems) + [vs[n - 1]]
            && stack.values == vs[..n - 2] + [vs[n - 1]]
          else r == Err(Type)))
    }

    /**
     * `cal` with arity the operand: a lambda of that arity gets a new frame
     * that returns to `next`, based at the callee's slot, with a Null per
     * local; a native lambda replaces callee and argument by its result and
     * ip moves past the instruction.
     */
    twostate predicate CallStepped(i: Instr, new r: Result<(), Reason>)
      reads *
    {
      var arity := i.operand; var vs := old(stack.values);
      stack.upvalues == old(stack.upvalues) && Untouched({})
      && (arity + 1 > |vs| ==> r == Err(Panic))
      && (arity + 1 <= |vs| ==>
        var base := |vs| - arity - 1; var callee := vs[base];
        match callee
        case Lambda(l) =>
          if arity != l.arity then r == Err(WrongArity)
          else (r.Ok? && stack.frames == old(stack.frames) + [Frame(old(chunk), i.next, old(bp))]
            && chunk == l.chunk && ip == 0 && bp == base && stack.values == vs + Nulls(l.locals))
        case NativeLambda(native) =>
          if arity != 1 then r == Err(WrongArity)
          else (r.Ok? && chunk == old(chunk) && ip == i.next && bp == old(bp)
            && stack.frames == old(stack.frames) && stack.values == vs[..base] + [native.call(vs[base + 1])])
        case _ => r == Err(ValueNotCallable(callee)))
    }

    /**
     * `ret`: with no frame the fiber is Done and nothing but ip changes;
     * otherwise the result is popped, every cell open on a slot down to the
     * base is closed, the result is pushed and the caller's frame restored;
     * no other object the fiber reached changes.
     */
    twostate predicate ReturnStepped(i: Instr, new r: Result<Status, Reason>)
      reads *
    {
      var vs := old(stack.values);
      (old(stack.frames) == [] ==>
        r == Ok(Done) && chunk == old(chunk) && ip == i.next && bp == old(bp) && stack.values == vs
        && stack.frames == [] && stack.upvalues == old(stack.upvalues) && Untouched({}))
      && (old(stack.frames) != [] && vs == [] ==> r == Err(EmptyStack))
      && (old(stack.frames) != [] && vs != [] ==>
        var n := |vs| - 1; var low := Min(n, old(bp));
        var caller := old(stack.frames)[|old(stack.frames)| - 1];
        r == Ok(Running)
        && stack.values == vs[..low] + [vs[n]]
        && stack.frames == old(stack.frames)[..|old(stack.frames)| - 1]
        && chunk == caller.chunk && ip == caller.ip && bp == caller.bp
        && Untouched(old(OpenOn(low, n)))
        && (forall c :: c in stack.upvalues ==> c in old(stack.upvalues))
        && forall k :: 0 <= k < |old(stack.upvalues)| ==>
          var c := old(stack.upvalues)[k];
          if old(c.state).Open? && low <= old(c.state).slot < n then
            c.state == Closed(vs[old(c.state).slot]) && c !in stack.upvalues
          else c.state == old(c.state) && c in stack.upvalues)
    }

    /** `next_op` and the handler of an opcode that pushes a constant. */
    method ExecuteConstant(i: Instr) returns (r: Result<(), Reason>)
      requires Valid() && Fetch(chunk, ip) == Some(i) && ConstantOp(i.opcode)
      modifies this, stack
      ensures Valid() && ValueStepped(i, r)
    {
      hide Valid, AccessStep, JumpStep, ArithmeticStep, LogicStep, Objects;
      var _ := NextOp();
      var operand := i.operand;
      match i.opcode {
        case Nul => r := PushValue(Null);
        case Tru => r := PushValue(Bool(true));
        case Fls => r := PushValue(Bool(false));
        case Flt => r := PushValue(Float(operand));
        case Int => r := PushValue(Int(ToI64(operand)));
        case Str => r := LoadString(operand);
        case Nal => r := LoadNative(operand);
      }
    }

    /** `next_op` and the handler of a local-slot opcode or a stack shuffle. */
    method ExecuteAccess(i: Instr) returns (r: Result<(), Reason>)
      requires Valid() && Fetch(chunk, ip) == Some(i) && AccessOp(i.opcode)
      modifies this, stack
      ensures Valid() && ValueStepped(i, r)
    {
      hide Valid, ConstantStep, JumpStep, ArithmeticStep, LogicStep, Objects;
      var _ := NextOp();
      var operand := i.operand;
      match i.opcode {
        case Pop => r := PopValue();
        case Lod => r := LoadLocal(operand);
        case Sav => r := SaveLocal(operand);
        case Dup => r := Duplicate();
        case Swp => r := Swap();
        case Rot => r := Rotate();
      }
    }

    /** `next_op` and the handler of a jump. */
    method ExecuteJump(i: Instr) returns (r: Result<(), Reason>)
      requires Valid() && Fetch(chunk, ip) == Some(i) && JumpOp(i.opcode)
      modifies this, stack
      ensures Valid() && ValueStepped(i, r)
    {
      hide Valid, ConstantStep, AccessStep, ArithmeticStep, LogicStep, Objects;
      var _ := NextOp();
      var operand := i.operand;
      match i.opcode {
        case Jmp => r := Jump(operand);
        case Jit => r := JumpIf(true, operand);
        case Jif => r := JumpIf(false, operand);
      }
    }

    /**
     * `next_op` and the handler of an arithmetic or ordering opcode: `neg`,
     * or the `binary!` operation the opcode names.
     */
    method ExecuteOperation(i: Instr) returns (r: Result<(), Reason>)
      requires Valid() && Fetch(chunk, ip) == Some(i) && ArithmeticOp(i.opcode)
      modifies this, stack
      ensures Valid() && ValueStepped(i, r)
    {
      hide Valid, ConstantStep, AccessStep, JumpStep, LogicStep, BinaryResult, BinaryPanics, Neg, NegPanics, Objects;
      var _ := NextOp();
      if i.opcode.Neg? {
        r := Negate();
      } else {
        r := Binary(BinaryOf(i.opcode));
      }
    }

    /** `next_op` and the handler of an equality, logical or tag opcode. */
    method ExecuteLogic(i: Instr) returns (r: Result<(), Reason>)
      requires Valid() && Fetch(chunk, ip) == Some(i) && LogicOp(i.opcode)
      modifies this, stack
      ensures Valid() && ValueStepped(i, r)
    {
      hide Valid, ConstantStep, AccessStep, JumpStep, ArithmeticStep, Eql, Neq, Not, Objects;
      var _ := NextOp();
      match i.opcode {
        case Eql => r := Equality(false);
        case Neq => r := Equality(true);
        case Not => r := LogicalNot();
        case Tag => r := MakeTagged();
        case Utg => r := Untag();
        case Gtg => r := GetTag();
      }
    }

    /** `next_op` and the handler of `arr`, `map` or `lmd`. */
    method ExecuteAlloc(i: Instr) returns (r: Result<(), Reason>)
      requires Valid() && Fetch(chunk, ip) == Some(i) && AllocOp(i.opcode)
      modifies this, stack
      ensures Valid() && AllocStepped(i, r)
    {
      hide Valid, Objects;
      var _ := NextOp();
      var operand := i.operand;
      match i.opcode {
        case Arr => r := NewArray();
        case Map => r := NewMap();
        case Lmd => r := MakeLambda(operand);
      }
    }

    /** `next_op` and the handler of `lou`, `sau` or `clu`. */
    method ExecuteUpvalue(i: Instr) returns (r: Result<(), Reason>)
      requires Valid() && Fetch(chunk, ip) == Some(i) && UpvalueOp(i.opcode)
      modifies this, stack, stack.upvalues, HeldAll(stack.values)
      ensures Valid() && UpvalueStepped(i, r)
    {
      hide Valid, Objects;
      var _ := NextOp();
      var operand := i.operand;
      match i.opcode {
        case Lou => r := LoadUpvalue(operand);
        case Sau => r := SaveUpvalue(operand);
        case Clu => r := CloseTop();
      }
    }

    /** `next_op` and the handler of `get`, `set` or `apn`. */
    method ExecuteContainer(i: Instr) returns (r: Result<(), Reason>)
      requires Valid() && Fetch(chunk, ip) == Some(i) && ContainerOp(i.opcode)
      modifies this, stack, HeldAll(stack.values)
      ensures Valid() && ContainerStepped(i, r)
    {
      hide Valid, Objects;
      var _ := NextOp();
      match i.opcode {
        case Get => r := GetKey();
        case Set => r := SetKey();
        case Apn => r := Append();
      }
    }

    /** `next_op` and the `cal` handler. */
    method ExecuteCall(i: Instr) returns (r: Result<(), Reason>)
      requires Valid() && Fetch(chunk, ip) == Some(i) && i.opcode == Opcodes.Cal
      modifies this, stack
      ensures Valid() && CallStepped(i, r)
    {
      hide Valid, Objects;
      var _ := NextOp();
      r := Call(i.operand);
    }

    /** `next_op` and the `ret` handler. */
    method ExecuteReturn(i: Instr) returns (r: Result<Status, Reason>)
      requires Valid() && Fetch(chunk, ip) == Some(i) && i.opcode == Opcodes.Ret
      modifies this, stack, stack.upvalues
      ensures Valid() && ReturnStepped(i, r)
      ensures r == Ok(Done) <==> old(stack.frames) == []
      ensures r != Ok(Yield)
    {
      hide Objects;
      var _ := NextOp();
      r := Return();
    }

    /** `next_op`: the instruction at ip, with ip moved past its operand. */
    method NextOp() returns (r: Result<Op, Reason>)
      modifies this
      ensures chunk == old(chunk) && bp == old(bp)
      ensures OpAt(chunk, old(ip)).None? ==> r == Err(InvalidCode(old(ip))) && ip == old(ip)
      ensures OpAt(chunk, old(ip)).Some? ==>
        r == Ok(OpAt(chunk, old(ip)).value) && ip == old(ip) + 1 + Size(r.value.byte)
    {
      var op := OpAt(chunk, ip);
      if op.None? {
        return Err(InvalidCode(ip));
      }
      ip := ip + 1 + Size(op.value.byte);
      r := Ok(op.value);
    }

    /** `stack_pop`: the top value, or EmptyStack. */
    method StackPop() returns (r: Result<Value, Reason>)
      requires Valid()
      modifies stack
      ensures Valid() && SameFrame()
      ensures old(stack.values) == [] ==> r == Err(EmptyStack) && stack.values == []
      ensures old(stack.values) != [] ==>
        r == Ok(old(stack.values)[|old(stack.values)| - 1]) && stack.values == old(stack.values)[..|old(stack.values)| - 1]
    {
      var v := stack.Pop();
      if v.None? {
        return Err(EmptyStack);
      }
      r := Ok(v.value);
    }

    /** `nul`, `tru`, `fls`, `flt` and `int`: push a constant value. */
    method PushValue(v: Value) returns (r: Result<(), Reason>)
      requires Valid()
      modifies stack
      ensures Valid() && SameFrame() && r.Ok?
      ensures stack.values == old(stack.values) + [v]
    {
      stack.Push(v);
      r := Ok(());
    }

    /** `str`: push a copy of the string constant at index. */
    method LoadString(index: nat) returns (r: Result<(), Reason>)
      requires Valid()
      modifies stack
      ensures Valid() && SameFrame()
      ensures index >= |chunk.data| ==> r == Err(InvalidData(index))
      ensures index < |chunk.data| && !chunk.data[index].Text? ==> r == Err(WrongConstantType)
      ensures index < |chunk.data| && chunk.data[index].Text? ==>
        r.Ok? && stack.values == old(stack.values) + [String(chunk.data[index].text)]
    {
      var c := ConstantAt(chunk, index);
      if c.None? {
        return Err(InvalidData(index));
      }
      var s := AsStr(c.value);
      if s.None? {
        return Err(WrongConstantType);
      }
      stack.Push(String(s.value));
      r := Ok(());
    }

    /** `arr`: push a new empty array. */
    method NewArray() returns (r: Result<(), Reason>)
      requires Valid()
      modifies stack
      ensures Valid() && SameFrame() && r.Ok?
      ensures |stack.values| == |old(stack.values)| + 1 && stack.values[..|old(stack.values)|] == old(stack.values)
      ensures var top := stack.values[|old(stack.values)|]; top.Array? && fresh(top.arr) && top.arr.elems == []
    {
      var a := new ArrayObj();
      stack.Push(Array(a));
      r := Ok(());
    }

    /** `map`: push a new empty map. */
    method NewMap() returns (r: Result<(), Reason>)
      requires Valid()
      modifies stack
      ensures Valid() && SameFrame() && r.Ok?
      ensures |stack.values| == |old(stack.values)| + 1 && stack.values[..|old(stack.values)|] == old(stack.values)
      ensures var top := stack.values[|old(stack.values)|]; top.Map? && fresh(top.m) && top.m.entries == map[]
    {
      var m := new MapObj();
      stack.Push(Map(m));
      r := Ok(());
    }

    /**
     * Why capturing a descriptor fails, judged on the stack `vals`: a local
     * slot bp+index must exist, and a non-local index must name one of the
     * cells of the lambda in slot bp.
     */
    function CaptureError(d: UpvalueDesc, vals: seq<Value>): Option<Reason>
      reads this`bp
    {
      if d.isLocal then
        if bp + d.index >= U64_LIMIT then Some(Panic)
        else if bp + d.index >= |vals| then Some(InvalidUpvalue(d.index))
        else None
      else if bp >= |vals| then Some(EmptyStack)
      else if !vals[bp].Lambda? then Some(WrongConstantType)
      else if d.index >= |vals[bp].lambda.upvalues| then Some(InvalidUpvalue(d.index))
      else None
    }

    /**
     * A captured cell: for a local slot, the registered cell open on bp+index;
     * otherwise the very cell the current lambda holds at that index.
     */
    ghost predicate Captures(d: UpvalueDesc, cell: Cell, vals: seq<Value>)
      reads this`bp, stack, cell
    {
      if d.isLocal then cell.state == Open(bp + d.index) && cell in stack.upvalues
      else (bp < |vals| && vals[bp].Lambda? && d.index < |vals[bp].lambda.upvalues|
        && cell == vals[bp].lambda.upvalues[d.index])
    }

    /** `capture_upvalue`. */
    method Capture(d: UpvalueDesc) returns (r: Result<Cell, Reason>)
      requires Valid()
      modifies stack
      ensures Valid()
      ensures chunk == old(chunk) && ip == old(ip) && bp == old(bp)
      ensures stack.values == old(stack.values) && stack.frames == old(stack.frames)
      ensures |old(stack.upvalues)| <= |stack.upvalues| && stack.upvalues[..|old(stack.upvalues)|] == old(stack.upvalues)
      ensures forall c :: c in stack.upvalues && c !in old(stack.upvalues) ==> fresh(c)
      ensures r.Err? <==> CaptureError(d, stack.values).Some?
      ensures r.Err? ==> r.error == CaptureError(d, stack.values).value && stack.upvalues == old(stack.upvalues)
      ensures r.Ok? ==> Captures(d, r.value, stack.values)
    {
      if d.isLocal {
        if bp + d.index >= U64_LIMIT {
          return Err(Panic);
        }
        if bp + d.index < |stack.values| {
          var cell := stack.Upvalue(bp + d.index);
          return Ok(cell);
        }
        return Err(InvalidUpvalue(d.index));
      }
      var current := stack.Get(bp);
      if current.None? {
        return Err(EmptyStack);
      }
      if !current.value.Lambda? {
        return Err(WrongConstantType);
      }
      var cells := current.value.lambda.upvalues;
      if d.index >= |cells| {
        return Err(InvalidUpvalue(d.index));
      }
      r := Ok(cells[d.index]);
    }

    /**
     * `lmd`: a lambda built from the function constant at index, capturing
     * each of its upvalue descriptors in order; the first failing capture is
     * the error.
     */
    method MakeLambda(index: nat) returns (r: Result<(), Reason>)
      requires Valid()
      modifies stack
      ensures Valid()
      ensures chunk == old(chunk) && ip == old(ip) && bp == old(bp) && stack.frames == old(stack.frames)
      ensures |old(stack.upvalues)| <= |stack.upvalues| && stack.upvalues[..|old(stack.upvalues)|] == old(stack.upvalues)
      ensures forall c :: c in stack.upvalues && c !in old(stack.upvalues) ==> fresh(c)
      ensures index >= |chunk.data| ==> r == Err(InvalidData(index))
      ensures index < |chunk.data| && !chunk.data[index].Fun? ==> r == Err(WrongConstantType)
      ensures index < |chunk.data| && chunk.data[index].Fun? ==>
        var ds := chunk.data[index].fn.upvalues;
        (r.Ok? <==> forall k :: 0 <= k < |ds| ==> CaptureError(ds[k], old(stack.values)).None?)
        && (r.Err? ==> exists k :: (0 <= k < |ds| && CaptureError(ds[k], old(stack.values)) == Some(r.error)
              && forall j :: 0 <= j < k ==> CaptureError(ds[j], old(stack.values)).None?))
      ensures r.Ok? ==>
        var f := chunk.data[index].fn;
        var n := |old(stack.values)|;
        |stack.values| == n + 1 && stack.values[..n] == old(stack.values) && stack.values[n].Lambda?
        && var l := stack.values[n].lambda;
        l.arity == f.arity && l.chunk == f.chunk && l.locals == f.locals && |l.upvalues| == |f.upvalues|
        && forall k :: 0 <= k < |f.upvalues| ==> Captures(f.upvalues[k], l.upvalues[k], old(stack.values))
    {
      var c := ConstantAt(chunk, index);
      if c.None? {
        return Err(InvalidData(index));
      }
      var fn := AsFunction(c.value);
      if fn.None? {
        return Err(WrongConstantType);
      }
      var f := fn.value;
      ghost var vals := stack.values;
      var cells: seq<Cell> := [];
      var k := 0;
      while k < |f.upvalues|
        invariant k <= |f.upvalues| && |cells| == k
        invariant Valid()
        invariant stack.values == vals && stack.frames == old(stack.frames)
        invariant |old(stack.upvalues)| <= |stack.upvalues| && stack.upvalues[..|old(stack.upvalues)|] == old(stack.upvalues)
        invariant forall c :: c in stack.upvalues && c !in old(stack.upvalues) ==> fresh(c)
        invariant forall j :: 0 <= j < k ==> CaptureError(f.upvalues[j], vals).None?
        invariant forall j :: 0 <= j < k ==> Captures(f.upvalues[j], cells[j], vals)
      {
        var cell := Capture(f.upvalues[k]);
        if cell.Err? {
          return Err(cell.error);
        }
        cells := cells + [cell.value];
        k := k + 1;
      }
      stack.Push(Lambda(Closure(f.arity, f.chunk, f.locals, cells)));
      r := Ok(());
    }

    /** `nal`: push the registered native lambda with that id. */
    method LoadNative(id: nat) returns (r: Result<(), Reason>)
      requires Valid()
      modifies stack
      ensures Valid() && SameFrame()
      ensures id >= |registry.lambdas| ==> r == Err(InvalidNativeLambda(id))
      ensures id < |registry.lambdas| ==>
        r.Ok? && stack.values == old(stack.values) + [NativeLambda(registry.lambdas[id])]
    {
      var native := registry.Get(id);
      if native.None? {
        return Err(InvalidNativeLambda(id));
      }
      stack.Push(NativeLambda(native.value));
      r := Ok(());
    }

    /** `pop`: drop the top value without looking at the upvalue registry. */
    method PopValue() returns (r: Result<(), Reason>)
      requires Valid()
      modifies stack
      ensures Valid() && SameFrame()
      ensures old(stack.values) == [] ==> r == Err(EmptyStack)
      ensures old(stack.values) != [] ==> r.Ok? && stack.values == old(stack.values)[..|old(stack.values)| - 1]
    {
      var v := StackPop();
      if v.Err? {
        return Err(v.error);
      }
      r := Ok(());
    }

    /** `lod`: push a copy of local slot bp+local. */
    method LoadLocal(local: nat) returns (r: Result<(), Reason>)
      requires Valid()
      modifies stack
      ensures Valid() && SameFrame()
      ensures bp + local >= U64_LIMIT ==> r == Err(Panic)
      ensures bp + local < U64_LIMIT && bp + local >= |old(stack.values)| ==> r == Err(EmptyStack)
      ensures bp + local < U64_LIMIT && bp + local < |old(stack.values)| ==>
        r.Ok? && stack.values == old(stack.values) + [old(stack.values)[bp + local]]
    {
      if bp + local >= U64_LIMIT {
        return Err(Panic);
      }
      var v := stack.Get(bp + local);
      if v.None? {
        return Err(EmptyStack);
      }
      stack.Push(v.value);
      r := Ok(());
    }

    /** `sav`: copy the top value into local slot bp+local, leaving it on top. */
    method SaveLocal(local: nat) returns (r: Result<(), Reason>)
      requires Valid()
      modifies stack
      ensures Valid() && SameFrame()
      ensures old(stack.values) == [] ==> r == Err(EmptyStack)
      ensures old(stack.values) != [] && bp + local >= U64_LIMIT ==> r == Err(Panic)
      ensures old(stack.values) != [] && bp + local < U64_LIMIT && bp + local >= |old(stack.values)| ==> r == Err(EmptyStack)
      ensures old(stack.values) != [] && bp + local < U64_LIMIT && bp + local < |old(stack.values)| ==>
        r.Ok? && stack.values == old(stack.values)[bp + local := old(stack.values)[|old(stack.values)| - 1]]
    {
      var top := stack.Last();
      if top.None? {
        return Err(EmptyStack);
      }
      if bp + local >= U64_LIMIT {
        return Err(Panic);
      }
      var ok := stack.Set(bp + local, top.value);
      if !ok {
        return Err(EmptyStack);
      }
      r := Ok(());
    }

    /** The cell the current lambda (slot bp) holds at index, if there is one. */
    function CurrentCell(index: nat): Result<Cell, Reason>
      reads this`bp, stack
    {
      if bp >= |stack.values| then Err(EmptyStack)
      else if !stack.values[bp].Lambda? then Err(WrongConstantType)
      else if index >= |stack.values[bp].lambda.upvalues| then Err(InvalidUpvalue(index))
      else Ok(stack.values[bp].lambda.upvalues[index])
    }

    /** The cells of the current lambda. */
    function CurrentCells(): set<object>
      reads this`bp, stack
    {
      if bp < |stack.values| && stack.values[bp].Lambda? then set c | c in stack.values[bp].lambda.upvalues else {}
    }

    /** `lou`: push the upvalue's value, read from its stack slot while open and from the cell once closed. */
    method LoadUpvalue(index: nat) returns (r: Result<(), Reason>)
      requires Valid()
      modifies stack
      ensures Valid() && SameFrame()
      ensures old(CurrentCell(index)).Err? ==> r == Err(old(CurrentCell(index)).error)
      ensures old(CurrentCell(index)).Ok? ==>
        var cell := old(CurrentCell(index)).value;
        match cell.state
        case Open(slot) =>
          if slot < |old(stack.values)| then r.Ok? && stack.values == old(stack.values) + [old(stack.values)[slot]]
          else r == Err(EmptyStack)
        case Closed(v) => r.Ok? && stack.values == old(stack.values) + [v]
    {
      var cell := CurrentCell(index);
      if cell.Err? {
        return Err(cell.error);
      }
      var value;
      match cell.value.state {
        case Open(slot) =>
          var v := stack.Get(slot);
          if v.None? {
            return Err(EmptyStack);
          }
          value := v.value;
        case Closed(v) =>
          value := v;
      }
      stack.Push(value);
      r := Ok(());
    }

    /**
     * `sau`: store the top value through the upvalue, into its stack slot
     * while open and into the cell once closed; the value stays on top.
     */
    method SaveUpvalue(index: nat) returns (r: Result<(), Reason>)
      requires Valid()
      modifies stack, CurrentCells()
      ensures Valid() && SameFrame()
      ensures old(CurrentCell(index)).Err? ==> r == Err(old(CurrentCell(index)).error)
      ensures old(CurrentCell(index)).Ok? && old(stack.values) == [] ==> r == Err(EmptyStack)
      ensures old(CurrentCell(index)).Ok? && old(stack.values) != [] ==>
        var cell := old(CurrentCell(index)).value;
        var top := old(stack.values)[|old(stack.values)| - 1];
        match old(cell.state)
        case Open(slot) =>
          if slot < |old(stack.values)| then r.Ok? && stack.values == old(stack.values)[slot := top] && cell.state == old(cell.state)
          else r == Err(EmptyStack)
        case Closed(_) => r.Ok? && stack.values == old(stack.values) && cell.state == Closed(top)
      ensures Untouched(if old(CurrentCell(index)).Ok? then {old(CurrentCell(index)).value} else {})
    {
      var cell := CurrentCell(index);
      if cell.Err? {
        return Err(cell.error);
      }
      var top := stack.Last();
      if top.None? {
        return Err(EmptyStack);
      }
      match cell.value.state {
        case Open(slot) =>
          var ok := stack.Set(slot, top.value);
          if !ok {
            return Err(EmptyStack);
          }
        case Closed(_) =>
          assert forall i :: 0 <= i < |stack.upvalues| ==> stack.upvalues[i] != cell.value;
          cell.value.state := Closed(top.value);
      }
      r := Ok(());
    }

    /** `clu`: pop the top value, closing the cell open on its slot if there is one. */
    method CloseTop() returns (r: Result<(), Reason>)
      requires Valid()
      modifies stack, stack.upvalues
      ensures Valid()
      ensures chunk == old(chunk) && ip == old(ip) && bp == old(bp) && stack.frames == old(stack.frames)
      ensures old(stack.values) == [] ==> r == Err(EmptyStack)
      ensures old(stack.values) != [] ==>
        var vs := old(stack.values); var n := |vs|;
        r.Ok? && stack.values == vs[..n - 1]
        && (forall c :: c in stack.upvalues ==> c in old(stack.upvalues))
        && forall k :: 0 <= k < |old(stack.upvalues)| ==>
          var c := old(stack.upvalues)[k];
          if old(c.state) == Open(n - 1) then c.state == Closed(vs[n - 1]) && c !in stack.upvalues
          else c.state == old(c.state) && c in stack.upvalues
      ensures var n := |old(stack.values)|; Untouched(if n != 0 then old(OpenOn(n - 1, n)) else {})
    {
      var ok := stack.CloseUpvalue();
      if !ok {
        return Err(EmptyStack);
      }
      r := Ok(());
    }

    /** `jmp`: continue at offset. */
    method Jump(offset: nat) returns (r: Result<(), Reason>)
      modifies this
      ensures r.Ok? && ip == offset && chunk == old(chunk) && bp == old(bp)
    {
      ip := offset;
      r := Ok(());
    }

    /**
     * `jit` (when = true) and `jif` (when = false): pop the top value and
     * continue at offset only if it is exactly that boolean.
     */
    method JumpIf(when: bool, offset: nat) returns (r: Result<(), Reason>)
      requires Valid()
      modifies this, stack
      ensures Valid()
      ensures chunk == old(chunk) && bp == old(bp) && stack.frames == old(stack.frames) && stack.upvalues == old(stack.upvalues)
      ensures old(stack.values) == [] ==> r == Err(EmptyStack)
      ensures old(stack.values) != [] ==>
        r.Ok? && stack.values == old(stack.values)[..|old(stack.values)| - 1]
        && ip == (if old(stack.values)[|old(stack.values)| - 1] == Bool(when) then offset else old(ip))
    {
      var v := StackPop();
      if v.Err? {
        return Err(v.error);
      }
      if v.value == Bool(when) {
        ip := offset;
      }
      r := Ok(());
    }

    /** `dup`. */
    method Duplicate() returns (r: Result<(), Reason>)
      requires Valid()
      modifies stack
      ensures Valid() && SameFrame()
      ensures old(stack.values) == [] ==> r == Err(EmptyStack)
      ensures old(stack.values) != [] ==>
        r.Ok? && stack.values == old(stack.values) + [old(stack.values)[|old(stack.values)| - 1]]
    {
      var top := stack.Last();
      if top.None? {
        return Err(EmptyStack);
      }
      stack.Push(top.value);
      r := Ok(());
    }

    /** `swp`: exchange the two top values. */
    method Swap() returns (r: Result<(), Reason>)
      requires Valid()
      modifies stack
      ensures Valid() && SameFrame()
      ensures |old(stack.values)| < 2 ==> r == Err(EmptyStack)
      ensures |old(stack.values)| >= 2 ==>
        var vs := old(stack.values); var n := |vs|;
        r.Ok? && stack.values == vs[..n - 2] + [vs[n - 1], vs[n - 2]]
    {
      var second := StackPop();
      if second.Err? {
        return Err(second.error);
      }
      var first := StackPop();
      if first.Err? {
        return Err(first.error);
      }
      stack.Push(second.value);
      stack.Push(first.value);
      r := Ok(());
    }

    /** `rot`: a, b, c on top become c, a, b. */
    method Rotate() returns (r: Result<(), Reason>)
      requires Valid()
      modifies stack
      ensures Valid() && SameFrame()
      ensures |old(stack.values)| < 3 ==> r == Err(EmptyStack)
      ensures |old(stack.values)| >= 3 ==>
        var vs := old(stack.values); var n := |vs|;
        r.Ok? && stack.values == vs[..n - 3] + [vs[n - 1], vs[n - 3], vs[n - 2]]
    {
      var third := StackPop();
      if third.Err? {
        return Err(third.error);
      }
      var second := StackPop();
      if second.Err? {
        return Err(second.error);
      }
      var first := StackPop();
      if first.Err? {
        return Err(first.error);
      }
      stack.Push(third.value);
      stack.Push(first.value);
      stack.Push(second.value);
      r := Ok(());
    }

    /** The `binary!` handlers: pop right, then left, push `left.op(right)`; None is a Type error. */
    method Binary(op: BinaryOp) returns (r: Result<(), Reason>)
      requires Valid()
      modifies stack
      ensures Valid() && SameFrame()
      ensures |old(stack.values)| < 2 ==> r == Err(EmptyStack)
      ensures |old(stack.values)| >= 2 ==>
        var vs := old(stack.values); var n := |vs|;
        if BinaryPanics(op, vs[n - 2], vs[n - 1]) then r == Err(Panic)
        else match BinaryResult(floats, op, vs[n - 2], vs[n - 1])
          case Some(v) => r.Ok? && stack.values == vs[..n - 2] + [v]
          case None => r == Err(Type)
    {
      var right := StackPop();
      if right.Err? {
        return Err(right.error);
      }
      var left := StackPop();
      if left.Err? {
        return Err(left.error);
      }
      if BinaryPanics(op, left.value, right.value) {
        return Err(Panic);
      }
      var result := BinaryResult(floats, op, left.value, right.value);
      if result.None? {
        return Err(Type);
      }
      stack.Push(result.value);
      r := Ok(());
    }

    /** `neg`: numbers only. */
    method Negate() returns (r: Result<(), Reason>)
      requires Valid()
      modifies stack
      ensures Valid() && SameFrame()
      ensures old(stack.values) == [] ==> r == Err(EmptyStack)
      ensures old(stack.values) != [] ==>
        var vs := old(stack.values); var n := |vs|;
        if NegPanics(vs[n - 1]) then r == Err(Panic)
        else match Neg(floats, vs[n - 1])
          case Some(v) => r.Ok? && stack.values == vs[..n - 1] + [v]
          case None => r == Err(Type)
    {
      var value := StackPop();
      if value.Err? {
        return Err(value.error);
      }
      if NegPanics(value.value) {
        return Err(Panic);
      }
      var result := Neg(floats, value.value);
      if result.None? {
        return Err(Type);
      }
      stack.Push(result.value);
      r := Ok(());
    }

    /** `not`: booleans only. */
    method LogicalNot() returns (r: Result<(), Reason>)
      requires Valid()
      modifies stack
      ensures Valid() && SameFrame()
      ensures old(stack.values) == [] ==> r == Err(EmptyStack)
      ensures old(stack.values) != [] ==>
        var vs := old(stack.values); var n := |vs|;
        match Not(vs[n - 1])
        case Some(v) => r.Ok? && stack.values == vs[..n - 1] + [v]
        case None => r == Err(Type)
    {
      var value := StackPop();
      if value.Err? {
        return Err(value.error);
      }
      var result := Not(value.value);
      if result.None? {
        return Err(Type);
      }
      stack.Push(result.value);
      r := Ok(());
    }

    /** `eql` (negate = false) and `neq` (negate = true); these never fail on two values. */
    method Equality(negate: bool) returns (r: Result<(), Reason>)
      requires Valid()
      modifies stack
      ensures Valid() && SameFrame()
      ensures |old(stack.values)| < 2 ==> r == Err(EmptyStack)
      ensures |old(stack.values)| >= 2 ==>
        var vs := old(stack.values); var n := |vs|;
        r.Ok? && stack.values == vs[..n - 2] + [if negate then Neq(floats, vs[n - 2], vs[n - 1]) else Eql(floats, vs[n - 2], vs[n - 1])]
    {
      var right := StackPop();
      if right.Err? {
        return Err(right.error);
      }
      var left := StackPop();
      if left.Err? {
        return Err(left.error);
      }
      var result := if negate then Neq(floats, left.value, right.value) else Eql(floats, left.value, right.value);
      stack.Push(result);
      r := Ok(());
    }

    /** `get`: pop key and receiver, push the looked-up value; a failed lookup is InvalidKey. */
    method GetKey() returns (r: Result<(), Reason>)
      requires Valid()
      modifies stack
      ensures Valid() && SameFrame()
      ensures |old(stack.values)| < 2 ==> r == Err(EmptyStack)
      ensures |old(stack.values)| >= 2 ==>
        var vs := old(stack.values); var n := |vs|;
        match Get(vs[n - 2], vs[n - 1])
        case Some(v) => r.Ok? && stack.values == vs[..n - 2] + [v]
        case None => r == Err(InvalidKey(vs[n - 1]))
    {
      var key := StackPop();
      if key.Err? {
        return Err(key.error);
      }
      var receiver := StackPop();
      if receiver.Err? {
        return Err(receiver.error);
      }
      var value := Get(receiver.value, key.value);
      if value.None? {
        return Err(InvalidKey(key.value));
      }
      stack.Push(value.value);
      r := Ok(());
    }

    /** The container a handler popping k values finds under its operands. */
    function Under(k: nat): set<object>
      reads this`bp, stack
    {
      if 0 < k <= |stack.values| then Container(stack.values[|stack.values| - k]) else {}
    }

    /**
     * `set`: pop key, value and receiver, store the value in the receiver and
     * push the value back; a failed store is InvalidKey.
     */
    method SetKey() returns (r: Result<(), Reason>)
      requires Valid()
      modifies stack, Under(3)
      ensures Valid() && SameFrame()
      ensures |old(stack.values)| < 3 ==> r == Err(EmptyStack)
      ensures |old(stack.values)| >= 3 ==>
        var vs := old(stack.values); var n := |vs|;
        var receiver, value, key := vs[n - 3], vs[n - 2], vs[n - 1];
        (receiver.Array? ==>
          if key.Int? && 0 <= key.i < |old(receiver.arr.elems)| then
            r.Ok? && receiver.arr.elems == old(receiver.arr.elems)[key.i := value]
          else r == Err(InvalidKey(key)) && receiver.arr.elems == old(receiver.arr.elems))
        && (receiver.Map? ==>
          if key.String? then r.Ok? && receiver.m.entries == old(receiver.m.entries)[key.s := value]
          else r == Err(InvalidKey(key)) && receiver.m.entries == old(receiver.m.entries))
        && (!receiver.Array? && !receiver.Map? ==> r == Err(InvalidKey(key)))
        && (r.Ok? ==> stack.values == vs[..n - 3] + [value])
    {
      if |stack.values| < 3 {
        return Err(EmptyStack);
      }
      var key := stack.Pop();
      var value := stack.Pop();
      var receiver := stack.Pop();
      var ok := Set(receiver.value, key.value, value.value);
      if !ok {
        return Err(InvalidKey(key.value));
      }
      stack.Push(value.value);
      r := Ok(());
    }

    /** `apn`: pop a value and an array, append the value and push it back. */
    method Append() returns (r: Result<(), Reason>)
      requires Valid()
      modifies stack, Under(2)
      ensures Valid() && SameFrame()
      ensures |old(stack.values)| < 2 ==> r == Err(EmptyStack)
      ensures |old(stack.values)| >= 2 ==>
        var vs := old(stack.values); var n := |vs|;
        if vs[n - 2].Array? then
          r.Ok? && vs[n - 2].arr.elems == old(vs[n - 2].arr.elems) + [vs[n - 1]]
          && stack.values == vs[..n - 2] + [vs[n - 1]]
        else r == Err(Type)
    {
      var value := StackPop();
      if value.Err? {
        return Err(value.error);
      }
      var target := StackPop();
      if target.Err? {
        return Err(target.error);
      }
      if !target.value.Array? {
        return Err(Type);
      }
      target.value.arr.Push(value.value);
      stack.Push(value.value);
      r := Ok(());
    }

    /** `tag`: pop a string tag, then a value, and push the tagged value. */
    method MakeTagged() returns (r: Result<(), Reason>)
      requires Valid()
      modifies stack
      ensures Valid() && SameFrame()
      ensures old(stack.values) == [] ==> r == Err(EmptyStack)
      ensures old(stack.values) != [] && !old(stack.values)[|old(stack.values)| - 1].String? ==>
        r == Err(InvalidTag(old(stack.values)[|old(stack.values)| - 1]))
      ensures old(stack.values) != [] && old(stack.values)[|old(stack.values)| - 1].String? && |old(stack.values)| < 2 ==>
        r == Err(EmptyStack)
      ensures |old(stack.values)| >= 2 && old(stack.values)[|old(stack.values)| - 1].String? ==>
        var vs := old(stack.values); var n := |vs|;
        r.Ok? && stack.values == vs[..n - 2] + [Tagged(vs[n - 1].s, vs[n - 2])]
    {
      var tag := StackPop();
      if tag.Err? {
        return Err(tag.error);
      }
      if !tag.value.String? {
        return Err(InvalidTag(tag.value));
      }
      var value := StackPop();
      if value.Err? {
        return Err(value.error);
      }
      stack.Push(Tagged(tag.value.s, value.value));
      r := Ok(());
    }

    /** `utg`: replace a tagged value by its payload. */
    method Untag() returns (r: Result<(), Reason>)
      requires Valid()
      modifies stack
      ensures Valid() && SameFrame()
      ensures old(stack.values) == [] ==> r == Err(EmptyStack)
      ensures old(stack.values) != [] ==>
        var vs := old(stack.values); var n := |vs|;
        if vs[n - 1].Tagged? then r.Ok? && stack.values == vs[..n - 1] + [vs[n - 1].inner]
        else r == Err(Type)
    {
      var value := StackPop();
      if value.Err? {
        return Err(value.error);
      }
      if !value.value.Tagged? {
        return Err(Type);
      }
      stack.Push(value.value.inner);
      r := Ok(());
    }

    /** `gtg`: replace a value by its tag, or by Null when it is not tagged. */
    method GetTag() returns (r: Result<(), Reason>)
      requires Valid()
      modifies stack
      ensures Valid() && SameFrame()
      ensures old(stack.values) == [] ==> r == Err(EmptyStack)
      ensures old(stack.values) != [] ==>
        var vs := old(stack.values); var n := |vs|;
        r.Ok? && stack.values == vs[..n - 1] + [if vs[n - 1].Tagged? then String(vs[n - 1].tag) else Null]
    {
      var value := StackPop();
      if value.Err? {
        return Err(value.error);
      }
      stack.Push(if value.value.Tagged? then String(value.value.tag) else Null);
      r := Ok(());
    }

    /**
     * `cal`: the callee sits under its arity arguments. A lambda of that arity
     * gets a new frame whose base is the callee's slot and a Null for each of
     * its locals; a native lambda takes exactly one argument and is replaced,
     * with its argument, by its result.
     */
    method Call(arity: nat) returns (r: Result<(), Reason>)
      requires Valid()
      modifies this, stack
      ensures Valid() && stack.upvalues == old(stack.upvalues)
      ensures arity + 1 > |old(stack.values)| ==> r == Err(Panic)
      ensures arity + 1 <= |old(stack.values)| ==>
        var vs := old(stack.values); var base := |vs| - arity - 1; var callee := vs[base];
        match callee
        case Lambda(l) =>
          if arity != l.arity then r == Err(WrongArity)
          else (r.Ok? && stack.frames == old(stack.frames) + [Frame(old(chunk), old(ip), old(bp))]
            && chunk == l.chunk && ip == 0 && bp == base && stack.values == vs + Nulls(l.locals))
        case NativeLambda(native) =>
          if arity != 1 then r == Err(WrongArity)
          else r.Ok? && SameFrame() && stack.values == vs[..base] + [native.call(vs[base + 1])]
        case _ => r == Err(ValueNotCallable(callee))
    {
      if arity + 1 > |stack.values| {
        return Err(Panic);
      }
      var base := |stack.values| - arity - 1;
      var callee := stack.values[base];
      match callee {
        case Lambda(l) =>
          if arity != l.arity {
            return Err(WrongArity);
          }
          stack.PushFrame(Frame(chunk, ip, bp));
          chunk := l.chunk;
          ip := 0;
          bp := base;
          ghost var vs := stack.values;
          for i := 0 to l.locals
            invariant stack.values == vs + Nulls(i)
            invariant stack.frames == old(stack.frames) + [Frame(old(chunk), old(ip), old(bp))]
            invariant stack.upvalues == old(stack.upvalues) && Valid()
            invariant chunk == l.chunk && ip == 0 && bp == base
          {
            stack.Push(Null);
            assert Nulls(i) + [Null] == Nulls(i + 1);
          }
        case NativeLambda(native) =>
          if arity != 1 {
            return Err(WrongArity);
          }
          var argument := StackPop();
          var result := native.call(argument.value);
          var _ := StackPop();
          stack.Push(result);
        case _ =>
          return Err(ValueNotCallable(callee));
      }
      r := Ok(());
    }

    /**
     * `ret`: with no frame the fiber is Done and nothing changes. Otherwise the
     * result is popped, every slot down to the base pointer is closed (a cell
     * open on one of them takes its value and leaves the registry), the result
     * is pushed back, and the caller's chunk, ip and bp are restored.
     */
    method Return() returns (r: Result<Status, Reason>)
      requires Valid()
      modifies this, stack, stack.upvalues
      ensures Valid()
      ensures old(stack.frames) == [] ==>
        r == Ok(Done) && SameFrame() && stack.values == old(stack.values)
      ensures old(stack.frames) != [] && old(stack.values) == [] ==> r == Err(EmptyStack)
      ensures old(stack.frames) != [] && old(stack.values) != [] ==>
        var vs := old(stack.values); var n := |vs| - 1; var low := Min(n, old(bp));
        var caller := old(stack.frames)[|old(stack.frames)| - 1];
        r == Ok(Running)
        && stack.values == vs[..low] + [vs[n]]
        && stack.frames == old(stack.frames)[..|old(stack.frames)| - 1]
        && chunk == caller.chunk && ip == caller.ip && bp == caller.bp
        && (forall c :: c in stack.upvalues ==> c in old(stack.upvalues))
        && forall i :: 0 <= i < |old(stack.upvalues)| ==>
          var c := old(stack.upvalues)[i];
          if low <= old(c.state).slot < n then c.state == Closed(vs[old(c.state).slot]) && c !in stack.upvalues
          else c.state == old(c.state) && c in stack.upvalues
      ensures old(stack.frames) == [] || old(stack.values) == [] ==> Untouched({})
      ensures old(stack.frames) != [] && old(stack.values) != [] ==>
        var n := |old(stack.values)| - 1; var low := Min(n, old(bp)); Untouched(old(OpenOn(low, n)))
    {
      if stack.IsFramesEmpty() {
        return Ok(Done);
      }
      var result := StackPop();
      if result.Err? {
        return Err(result.error);
      }
      stack.CloseDownTo(bp);
      RestoreFrame(result.value);
      r := Ok(Running);
    }

    /** The end of `ret`: push the result back and restore the caller's chunk, ip and bp. */
    method RestoreFrame(result: Value)
      requires Valid() && stack.frames != []
      modifies this, stack
      ensures Valid()
      ensures stack.values == old(stack.values) + [result]
      ensures stack.frames == old(stack.frames)[..|old(stack.frames)| - 1] && stack.upvalues == old(stack.upvalues)
      ensures var caller := old(stack.frames)[|old(stack.frames)| - 1];
        chunk == caller.chunk && ip == caller.ip && bp == caller.bp
    {
      stack.Push(result);
      var frame := stack.PopFrame();
      assert frame.Some?;
      chunk := frame.value.chunk;
      ip := frame.value.ip;
      bp := frame.value.bp;
    }
  }
}
