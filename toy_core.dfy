/**
 * The toy virtual machine's `Core`: a program counter into the program bytes
 * and an operand stack of raw bytes. Each instruction is one byte (a code and
 * a type), followed by its program operand where it has one. The pure
 * functions state one instruction (`Step`) and a bounded run (`Run`); the
 * `Core` class is proved to follow them.
 */
module ToyCore {
  import opened Wrappers
  import opened Bytes
  import opened ToyInstruction
  import opened ToyStack

  datatype Fault =
    | EndOfProgram
    | InvalidOperationCode(code: nat)
    | InvalidOperationType(t: OperationType)
    | EmptyStack
    | InvalidInstruction(target: nat)
    | Panic

  /** The machine state: the program counter and the operand stack's bytes. */
  datatype Machine = Machine(instruction: nat, stack: seq<u8>)

  /** `next_program_bytes`: the next `len` program bytes, or the end of the program. */
  function Fetch(program: seq<u8>, m: Machine, len: nat): Result<(seq<u8>, Machine), Fault> {
    if m.instruction + len > |program| then Err(EndOfProgram)
    else Ok((program[m.instruction..m.instruction + len], m.(instruction := m.instruction + len)))
  }

  /** `pop_operand_stack`: the top operand of a type, or an error when the stack is too short. */
  function PopOperand(m: Machine, t: OperationType): (r: Result<(Operand, Machine), Fault>)
    requires t != NopeType
    ensures r.Err? <==> Len(t) > |m.stack|
    ensures r.Ok? ==> r.value.1.instruction == m.instruction && r.value.1.stack == m.stack[..|m.stack| - Len(t)]
    ensures r.Ok? ==> TypeOfOperand(r.value.0) == t
  {
    match PopOf(m.stack, Len(t))
    case None => Err(EmptyStack)
    case Some((top, rest)) => Ok((Decode(top, t), m.(stack := rest)))
  }

  /** `pop_operand_stack_twice`: the top operand, then the one below it. */
  function PopTwice(m: Machine, t: OperationType): (r: Result<(Operand, Operand, Machine), Fault>)
    requires t != NopeType
    ensures r.Err? <==> 2 * Len(t) > |m.stack|
    ensures r.Ok? ==> r.value.2.instruction == m.instruction && r.value.2.stack == m.stack[..|m.stack| - 2 * Len(t)]
    ensures r.Ok? ==> TypeOfOperand(r.value.0) == t && TypeOfOperand(r.value.1) == t
  {
    match PopOperand(m, t)
    case Err(e) => Err(e)
    case Ok((left, m1)) =>
      match PopOperand(m1, t)
      case Err(e) => Err(e)
      case Ok((right, m2)) => Ok((left, right, m2))
  }

  /** `push_operand_stack`. */
  function PushOperand(m: Machine, o: Operand): Machine {
    m.(stack := m.stack + Encode(o))
  }

  /** The bytes `eq` and `neq` build: `len` zero bytes, the first set to 1 when the test holds. */
  function Flag(t: OperationType, holds: bool): (r: seq<u8>)
    requires t != NopeType
    ensures |r| == Len(t)
  {
    [if holds then 1 else 0] + seq(Len(t) - 1, _ => 0)
  }

  function ArithOf(c: OperationCode): ArithOp
    requires c in {Add, Sub, Mul, Div, Mod}
  {
    match c
    case Add => AddOp
    case Sub => SubOp
    case Mul => MulOp
    case Div => DivOp
    case Mod => RemOp
  }

  /**
   * `execute_add` … `execute_mod`: `left` is the top operand and `right` the
   * one below it; add and mul compute `left op right`, sub, div and mod
   * compute `right op left`. An integer division by zero panics.
   */
  function Arithmetic(fl: F32Ops, m: Machine, c: OperationCode, t: OperationType): (r: Result<Machine, Fault>)
    requires c in {Add, Sub, Mul, Div, Mod} && Allowed(c, t)
    ensures r.Ok? ==> r.value.instruction == m.instruction && |r.value.stack| == |m.stack| - Len(t)
  {
    match PopTwice(m, t)
    case Err(e) => Err(e)
    case Ok((left, right, m1)) =>
      var op := ArithOf(c);
      var (a, b) := if c == Add || c == Mul then (left, right) else (right, left);
      if Panics(op, a, b) then Err(Panic) else Ok(PushOperand(m1, Arith(fl, op, a, b)))
  }

  /**
   * `execute_jump`: pop the stack operand, read a u32 target from the
   * program, and jump there only when the stack operand is zero; a target
   * outside the program is an error.
   */
  function Jumped(fl: F32Ops, program: seq<u8>, m: Machine, t: OperationType): (r: Result<Machine, Fault>)
    requires t != NopeType
    ensures r.Ok? ==> r.value.instruction <= |program| && |r.value.stack| == |m.stack| - Len(t)
  {
    match PopOperand(m, t)
    case Err(e) => Err(e)
    case Ok((cond, m1)) =>
      match Fetch(program, m1, Len(U32))
      case Err(e) => Err(e)
      case Ok((bytes, m2)) =>
        if !IsZero(fl, cond) then Ok(m2)
        else
          var target := Decode(bytes, U32).u;
          if target >= |program| then Err(InvalidInstruction(target)) else Ok(m2.(instruction := target))
  }

  /** `execute_eq` (`negate` false) and `execute_neq` (`negate` true). */
  function Compared(fl: F32Ops, m: Machine, t: OperationType, negate: bool): (r: Result<Machine, Fault>)
    requires t != NopeType
    ensures r.Ok? ==> r.value.instruction == m.instruction && |r.value.stack| == |m.stack| - Len(t)
  {
    match PopTwice(m, t)
    case Err(e) => Err(e)
    case Ok((left, right, m1)) =>
      Ok(PushOperand(m1, Decode(Flag(t, OperandEq(fl, left, right) != negate), t)))
  }

  /** The `match operation_code` of `execute`: what one decoded, allowed instruction does. */
  function Dispatch(fl: F32Ops, program: seq<u8>, m: Machine, c: OperationCode, t: OperationType): Result<Machine, Fault>
    requires Allowed(c, t)
  {
    match c
    case Nope => Ok(m)
    case Push =>
      (match Fetch(program, m, Len(t))
       case Err(e) => Err(e)
       case Ok((bytes, m1)) => Ok(PushOperand(m1, Decode(bytes, t))))
    case Pop =>
      (match PopOperand(m, t)
       case Err(e) => Err(e)
       case Ok((_, m1)) => Ok(m1))
    case Jump => Jumped(fl, program, m, t)
    case Dup =>
      (match PopOperand(m, t)
       case Err(e) => Err(e)
       case Ok((o, m1)) => Ok(PushOperand(PushOperand(m1, o), o)))
    case Eq => Compared(fl, m, t, false)
    case Neq => Compared(fl, m, t, true)
    case _ => Arithmetic(fl, m, c, t)
  }

  /** One iteration of `execute`'s loop before its end test: fetch, decode, check the type, run. */
  function Step(fl: F32Ops, program: seq<u8>, m: Machine): Result<Machine, Fault> {
    match Fetch(program, m, 1)
    case Err(e) => Err(e)
    case Ok((bytes, m1)) =>
      match CodeOf(bytes[0])
      case Err(code) => Err(InvalidOperationCode(code))
      case Ok(c) =>
        var t := TypeOf(bytes[0]);
        if !Allowed(c, t) then Err(InvalidOperationType(t)) else Dispatch(fl, program, m1, c, t)
  }

  datatype Outcome = Finished(result: Result<(), Fault>) | OutOfFuel

  /**
   * `execute` for at most `fuel` instructions: stop at the first error, and
   * succeed once an instruction leaves the counter at or past the end.
   */
  function Run(fl: F32Ops, program: seq<u8>, m: Machine, fuel: nat): Outcome
    decreases fuel
  {
    if fuel == 0 then OutOfFuel
    else
      match Step(fl, program, m)
      case Err(e) => Finished(Err(e))
      case Ok(m1) => if m1.instruction >= |program| then Finished(Ok(())) else Run(fl, program, m1, fuel - 1)
  }

  // Properties of the instruction set

  /** With the counter at or past the end there is no instruction to fetch. */
  lemma StepPastEnd(fl: F32Ops, program: seq<u8>, m: Machine)
    requires m.instruction >= |program|
    ensures Step(fl, program, m) == Err(EndOfProgram)
  {
  }

  /** How many bytes an allowed instruction adds to (or, negative, takes from) the operand stack. */
  function StackEffect(c: OperationCode, t: OperationType): int {
    var w: int := Len(t);
    match c
    case Nope => 0
    case Push => w
    case Pop => -w
    case Jump => -w
    case Dup => w
    case _ => -w
  }

  /** A successful instruction changes the stack by its stack effect and keeps the counter within the program. */
  lemma DispatchEffect(fl: F32Ops, program: seq<u8>, m: Machine, c: OperationCode, t: OperationType)
    requires Allowed(c, t) && m.instruction <= |program|
    requires Dispatch(fl, program, m, c, t).Ok?
    ensures Dispatch(fl, program, m, c, t).value.instruction <= |program|
    ensures |Dispatch(fl, program, m, c, t).value.stack| == |m.stack| + StackEffect(c, t)
  {
    hide Arithmetic;
    hide Compared;
    hide Jumped;
    hide PopOperand;
    hide Decode;
    hide Encode;
  }

  /** A successful instruction leaves the counter inside the program or just past its end. */
  lemma StepStaysInProgram(fl: F32Ops, program: seq<u8>, m: Machine)
    requires Step(fl, program, m).Ok?
    ensures Step(fl, program, m).value.instruction <= |program|
  {
    var op := program[m.instruction];
    DispatchEffect(fl, program, m.(instruction := m.instruction + 1), CodeOf(op).value, TypeOf(op));
  }

  /** Every successful instruction changes the stack by exactly its stack effect. */
  lemma StepStackEffect(fl: F32Ops, program: seq<u8>, m: Machine)
    requires Step(fl, program, m).Ok?
    ensures var op := program[m.instruction];
      |Step(fl, program, m).value.stack| == |m.stack| + StackEffect(CodeOf(op).value, TypeOf(op))
  {
    var op := program[m.instruction];
    DispatchEffect(fl, program, m.(instruction := m.instruction + 1), CodeOf(op).value, TypeOf(op));
  }

  /** A nope byte only moves the counter on. */
  lemma NopeAdvances(fl: F32Ops, program: seq<u8>, m: Machine)
    requires m.instruction < |program| && program[m.instruction] == Operation(Nope, NopeType)
    ensures Step(fl, program, m) == Ok(m.(instruction := m.instruction + 1))
  {
    OperationDecodes(Nope, NopeType);
  }

  /** `push` copies its program operand's bytes onto the stack and moves past them. */
  lemma PushCopiesOperand(fl: F32Ops, program: seq<u8>, m: Machine, t: OperationType)
    requires t != NopeType
    requires m.instruction < |program| && program[m.instruction] == Operation(Push, t)
    requires m.instruction + 1 + Len(t) <= |program|
    ensures Step(fl, program, m) ==
      Ok(Machine(m.instruction + 1 + Len(t), m.stack + program[m.instruction + 1..m.instruction + 1 + Len(t)]))
  {
    OperationDecodes(Push, t);
    EncodeDecode(program[m.instruction + 1..m.instruction + 1 + Len(t)], t);
  }

  /** `dup` pushes a second copy of the top operand's bytes. */
  lemma DupCopiesTop(fl: F32Ops, program: seq<u8>, m: Machine, t: OperationType, rest: seq<u8>, top: seq<u8>)
    requires t != NopeType && |top| == Len(t) && m.stack == rest + top
    requires m.instruction < |program| && program[m.instruction] == Operation(Dup, t)
    ensures Step(fl, program, m) == Ok(Machine(m.instruction + 1, rest + top + top))
  {
    OperationDecodes(Dup, t);
    PopAfterPush(rest, top);
    EncodeDecode(top, t);
  }

  /** `eq` and `neq` replace the top two operands by a flag that is 1 exactly when the test holds. */
  lemma CompareFlags(fl: F32Ops, program: seq<u8>, m: Machine, t: OperationType, rest: seq<u8>, second: seq<u8>, top: seq<u8>, negate: bool)
    requires t != NopeType && |second| == Len(t) && |top| == Len(t) && m.stack == rest + second + top
    requires m.instruction < |program| && program[m.instruction] == Operation(if negate then Neq else Eq, t)
    ensures var holds := OperandEq(fl, Decode(top, t), Decode(second, t)) != negate;
      Step(fl, program, m) == Ok(Machine(m.instruction + 1, rest + Flag(t, holds)))
  {
    OperationDecodes(if negate then Neq else Eq, t);
    PopAfterPush(rest + second, top);
    PopAfterPush(rest, second);
    var holds := OperandEq(fl, Decode(top, t), Decode(second, t)) != negate;
    EncodeDecode(Flag(t, holds), t);
  }

  /**
   * The five arithmetic instructions replace the top two operands by one
   * result: add and mul combine the top with the one below, sub, div and mod
   * take the one below as the left-hand side; an integer division or
   * remainder by a zero top operand panics.
   */
  lemma ArithmeticOperandOrder(fl: F32Ops, program: seq<u8>, m: Machine, c: OperationCode, t: OperationType, rest: seq<u8>, second: seq<u8>, top: seq<u8>)
    requires c in {Add, Sub, Mul, Div, Mod} && Allowed(c, t)
    requires |second| == Len(t) && |top| == Len(t) && m.stack == rest + second + top
    requires m.instruction < |program| && program[m.instruction] == Operation(c, t)
    ensures var op := ArithOf(c);
      var (a, b) := if c == Add || c == Mul then (Decode(top, t), Decode(second, t)) else (Decode(second, t), Decode(top, t));
      Step(fl, program, m) ==
        if Panics(op, a, b) then Err(Panic)
        else Ok(Machine(m.instruction + 1, rest + Encode(Arith(fl, op, a, b))))
  {
    OperationDecodes(c, t);
    PopAfterPush(rest + second, top);
    PopAfterPush(rest, second);
  }

  /**
   * `jump` with a zero stack operand goes to the u32 target that follows it,
   * an error when the target is outside the program; with a non-zero operand
   * it moves past the target.
   */
  lemma JumpIfZero(fl: F32Ops, program: seq<u8>, m: Machine, t: OperationType, rest: seq<u8>, top: seq<u8>)
    requires t != NopeType && |top| == Len(t) && m.stack == rest + top
    requires m.instruction < |program| && program[m.instruction] == Operation(Jump, t)
    requires m.instruction + 5 <= |program|
    ensures var target := FromLE(program[m.instruction + 1..m.instruction + 5]);
      Step(fl, program, m) ==
        if !IsZero(fl, Decode(top, t)) then Ok(Machine(m.instruction + 5, rest))
        else if target >= |program| then Err(InvalidInstruction(target))
        else Ok(Machine(target, rest))
  {
    OperationDecodes(Jump, t);
    PopAfterPush(rest, top);
    var bytes := program[m.instruction + 1..m.instruction + 5];
    assert bytes[..4] == bytes;
    Moduli();
  }

  /** A program of `n` nope bytes runs to completion in `n` steps, leaving the stack untouched. */
  lemma {:induction false} NopesHalt(fl: F32Ops, program: seq<u8>, m: Machine, fuel: nat)
    requires m.instruction < |program| && |program| - m.instruction <= fuel
    requires forall i :: m.instruction <= i < |program| ==> program[i] == Operation(Nope, NopeType)
    ensures Run(fl, program, m, fuel) == Finished(Ok(()))
    decreases |program| - m.instruction
  {
    NopeAdvances(fl, program, m);
    var m1 := m.(instruction := m.instruction + 1);
    if m1.instruction < |program| {
      NopesHalt(fl, program, m1, fuel - 1);
    }
  }

  /** An empty program fails on its first fetch. */
  lemma EmptyProgramFails(fl: F32Ops, m: Machine, fuel: nat)
    requires fuel > 0
    ensures Run(fl, [], m, fuel) == Finished(Err(EndOfProgram))
  {
    StepPastEnd(fl, [], m);
  }

  /** One more step of a run that has not ended is a run with one less fuel from the next state. */
  lemma RunContinues(fl: F32Ops, program: seq<u8>, m: Machine, next: Machine, fuel: nat)
    requires fuel > 0 && Step(fl, program, m) == Ok(next) && next.instruction < |program|
    ensures Run(fl, program, m, fuel) == Run(fl, program, next, fuel - 1)
  {
  }

  /** A result paired with the state the method left, in the shape of the spec functions. */
  function With<T>(r: Result<T, Fault>, m: Machine): Result<(T, Machine), Fault> {
    match r
    case Ok(v) => Ok((v, m))
    case Err(e) => Err(e)
  }

  function Done(r: Result<(), Fault>, m: Machine): Result<Machine, Fault> {
    match r
    case Ok(_) => Ok(m)
    case Err(e) => Err(e)
  }

  class Core {
    const program: seq<u8>
    const floats: F32Ops
    var instruction: nat
    const operandStack: Stack

    /** The machine state the spec functions talk about. */
    function State(): Machine
      reads this, operandStack
    {
      Machine(instruction, operandStack.bytes)
    }

    constructor (program: seq<u8>, floats: F32Ops)
      ensures this.program == program && this.floats == floats && State() == Machine(0, [])
    {
      this.program := program;
      this.floats := floats;
      instruction := 0;
      operandStack := new Stack();
    }

    method NextProgramBytes(len: nat) returns (r: Result<seq<u8>, Fault>)
      modifies this
      ensures With(r, State()) == Fetch(program, old(State()), len)
    {
      var i := instruction;
      if i + len > |program| {
        return Err(EndOfProgram);
      }
      instruction := instruction + len;
      r := Ok(program[i..i + len]);
    }

    /** `next_operand`: a program operand of a type. */
    method NextOperand(t: OperationType) returns (r: Result<Operand, Fault>)
      requires t != NopeType
      modifies this
      ensures r.Err? ==> Fetch(program, old(State()), Len(t)) == Err(r.error)
      ensures r.Ok? ==> (Fetch(program, old(State()), Len(t)).Ok?
        && r.value == Decode(Fetch(program, old(State()), Len(t)).value.0, t)
        && State() == Fetch(program, old(State()), Len(t)).value.1)
    {
      var bytes := NextProgramBytes(Len(t));
      if bytes.Err? {
        return Err(bytes.error);
      }
      r := Ok(Decode(bytes.value, t));
    }

    method PushOperandStack(o: Operand)
      modifies operandStack
      ensures State() == PushOperand(old(State()), o)
    {
      operandStack.Push(Encode(o));
    }

    method PopOperandStack(t: OperationType) returns (r: Result<Operand, Fault>)
      requires t != NopeType
      modifies operandStack
      ensures With(r, State()) == PopOperand(old(State()), t)
    {
      var bytes := operandStack.Pop(Len(t));
      if bytes.None? {
        return Err(EmptyStack);
      }
      r := Ok(Decode(bytes.value, t));
    }

    method PopOperandStackTwice(t: OperationType) returns (r: Result<(Operand, Operand), Fault>)
      requires t != NopeType
      modifies operandStack
      ensures r.Err? ==> PopTwice(old(State()), t) == Err(r.error)
      ensures r.Ok? ==> PopTwice(old(State()), t) == Ok((r.value.0, r.value.1, State()))
    {
      var left := PopOperandStack(t);
      if left.Err? {
        return Err(left.error);
      }
      var right := PopOperandStack(t);
      if right.Err? {
        return Err(right.error);
      }
      r := Ok((left.value, right.value));
    }

    method ExecutePush(t: OperationType) returns (r: Result<(), Fault>)
      requires t != NopeType
      modifies this, operandStack
      ensures Done(r, State()) == Dispatch(floats, program, old(State()), Push, t)
    {
      var o := NextOperand(t);
      if o.Err? {
        return Err(o.error);
      }
      PushOperandStack(o.value);
      r := Ok(());
    }

    method ExecutePop(t: OperationType) returns (r: Result<(), Fault>)
      requires t != NopeType
      modifies operandStack
      ensures Done(r, State()) == Dispatch(floats, program, old(State()), Pop, t)
    {
      var o := PopOperandStack(t);
      if o.Err? {
        return Err(o.error);
      }
      r := Ok(());
    }

    /** `execute_add`, `execute_sub`, `execute_mul`, `execute_div` and `execute_mod`. */
    method ExecuteArithmetic(c: OperationCode, t: OperationType) returns (r: Result<(), Fault>)
      requires c in {Add, Sub, Mul, Div, Mod} && Allowed(c, t)
      modifies operandStack
      ensures Done(r, State()) == Arithmetic(floats, old(State()), c, t)
    {
      hide Arith;
      hide PopTwice;
      var popped := PopOperandStackTwice(t);
      if popped.Err? {
        return Err(popped.error);
      }
      var left, right := popped.value.0, popped.value.1;
      var op := ArithOf(c);
      var a, b := left, right;
      if c != Add && c != Mul {
        a, b := right, left;
      }
      if Panics(op, a, b) {
        return Err(Panic);
      }
      PushOperandStack(Arith(floats, op, a, b));
      r := Ok(());
    }

    method ExecuteJump(t: OperationType) returns (r: Result<(), Fault>)
      requires t != NopeType
      modifies this, operandStack
      ensures Done(r, State()) == Jumped(floats, program, old(State()), t)
    {
      var cond := PopOperandStack(t);
      if cond.Err? {
        return Err(cond.error);
      }
      var target := NextOperand(U32);
      if target.Err? {
        return Err(target.error);
      }
      if !IsZero(floats, cond.value) {
        return Ok(());
      }
      var to := target.value.u;
      if to >= |program| {
        return Err(InvalidInstruction(to));
      }
      instruction := to;
      r := Ok(());
    }

    method ExecuteDup(t: OperationType) returns (r: Result<(), Fault>)
      requires t != NopeType
      modifies operandStack
      ensures Done(r, State()) == Dispatch(floats, program, old(State()), Dup, t)
    {
      var o := PopOperandStack(t);
      if o.Err? {
        return Err(o.error);
      }
      PushOperandStack(o.value);
      PushOperandStack(o.value);
      r := Ok(());
    }

    /** `execute_eq` (`negate` false) and `execute_neq` (`negate` true). */
    method ExecuteCompare(t: OperationType, negate: bool) returns (r: Result<(), Fault>)
      requires t != NopeType
      modifies operandStack
      ensures Done(r, State()) == Compared(floats, old(State()), t, negate)
    {
      var popped := PopOperandStackTwice(t);
      if popped.Err? {
        return Err(popped.error);
      }
      var (left, right) := popped.value;
      var holds := OperandEq(floats, left, right) != negate;
      var bytes := [if holds then 1 else 0] + seq(Len(t) - 1, _ => 0);
      PushOperandStack(Decode(bytes, t));
      r := Ok(());
    }

    /** One pass of `execute`'s loop up to its end test. */
    method Cycle() returns (r: Result<(), Fault>)
      modifies this, operandStack
      ensures Done(r, State()) == Step(floats, program, old(State()))
    {
      var fetched := NextProgramBytes(1);
      if fetched.Err? {
        return Err(fetched.error);
      }
      var operation := fetched.value[0];
      var code := CodeOf(operation);
      if code.Err? {
        return Err(InvalidOperationCode(code.error));
      }
      var c := code.value;
      var t := TypeOf(operation);
      if !Allowed(c, t) {
        return Err(InvalidOperationType(t));
      }
      match c {
        case Nope => r := Ok(());
        case Push => r := ExecutePush(t);
        case Pop => r := ExecutePop(t);
        case Jump => r := ExecuteJump(t);
        case Dup => r := ExecuteDup(t);
        case Eq => r := ExecuteCompare(t, false);
        case Neq => r := ExecuteCompare(t, true);
        case _ => r := ExecuteArithmetic(c, t);
      }
    }

    /**
     * One pass of `execute`'s loop with its end test, given the outcome `Run`
     * promises from the current state: either the run ends here with that
     * outcome, or the same outcome is promised from the new state with one
     * less fuel.
     */
    method Iterate(ghost fuel: nat, ghost goal: Outcome) returns (r: Option<Outcome>)
      requires fuel > 0 && goal == Run(floats, program, State(), fuel)
      modifies this, operandStack
      ensures r.Some? ==> r.value == goal
      ensures r.None? ==> goal == Run(floats, program, State(), fuel - 1)
    {
      hide Step;
      var step := Cycle();
      if step.Err? {
        return Some(Finished(Err(step.error)));
      }
      if instruction >= |program| {
        return Some(Finished(Ok(())));
      }
      RunContinues(floats, program, old(State()), State(), fuel);
      r := None;
    }

    /**
     * `execute`, for at most `fuel` instructions: the outcome is the one `Run`
     * gives for the state the core starts in.
     */
    method Execute(fuel: nat) returns (r: Outcome)
      modifies this, operandStack
      ensures r == Run(floats, program, old(State()), fuel)
    {
      hide Step;
      var remaining: nat := fuel;
      ghost var goal := Run(floats, program, State(), fuel);
      while remaining > 0
        invariant goal == Run(floats, program, State(), remaining)
        decreases remaining
      {
        var ended := Iterate(remaining, goal);
        if ended.Some? {
          return ended.value;
        }
        remaining := remaining - 1;
      }
      r := OutOfFuel;
    }
  }
}
