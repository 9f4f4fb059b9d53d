/**
 * shu's `Vm`: it decodes an executable, installs the native lambda registry
 * and starts a fiber on the decoded main function; `Step` runs one
 * instruction of that fiber.
 */
module ShuVm {
  import opened Wrappers
  import opened Bytes
  import opened ShuChunk
  import opened ContainerParse
  import ContainerParser
  import opened Values
  import opened Registry
  import opened ShuFiber
  import FiberStack
  import Opcodes

  /** The reason `run` fails with when the executable does not decode. */
  function LoadFailure(f: Failure): (r: Reason)
    ensures r == Parse <==> f == ParseError
    ensures r != Parse ==> r == Panic
  {
    if f == ParseError then Parse else Panic
  }

  /**
   * Any object at all: the heap a running program may reach is not bounded
   * in advance, since a native callback may hand back any object.
   */
  ghost predicate AnyObject(o: object) {
    true
  }

  /** How `run`'s loop ends, for at most a given number of steps. */
  datatype Outcome = Finished(result: Result<(), Reason>) | OutOfFuel

  /**
   * What the loop `while let Running = step()? {}` makes of the successive
   * results of `step`: OutOfFuel when every one was Running.
   */
  function RunOutcome(steps: seq<Result<Status, Reason>>): Outcome {
    if steps == [] then OutOfFuel
    else match steps[0]
      case Ok(Running) => RunOutcome(steps[1..])
      case Ok(_) => Finished(Ok(()))
      case Err(e) => Finished(Err(e))
  }

  /**
   * The loop keeps stepping while the fiber is Running: the first step that
   * is not decides the outcome, Ok on Done or Yield and that step's error,
   * unchanged, otherwise.
   */
  lemma {:induction false} RunStops(steps: seq<Result<Status, Reason>>, k: nat)
    requires k < |steps| && steps[k] != Ok(Running)
    requires forall i :: 0 <= i < k ==> steps[i] == Ok(Running)
    ensures RunOutcome(steps) == Finished(if steps[k].Err? then Err(steps[k].error) else Ok(()))
  {
    if k > 0 {
      RunStops(steps[1..], k - 1);
    }
  }

  /** The loop runs out of fuel exactly when every step it took was Running. */
  lemma {:induction false} RunAllRunning(steps: seq<Result<Status, Reason>>)
    ensures RunOutcome(steps) == OutOfFuel <==> forall i :: 0 <= i < |steps| ==> steps[i] == Ok(Running)
  {
    if steps != [] {
      RunAllRunning(steps[1..]);
      assert forall i :: 1 <= i < |steps| ==> steps[i] == steps[1..][i - 1];
    }
  }

  /**
   * The part of a fiber's state before a step that its status depends on,
   * heap contents aside: chunk, ip, base pointer, values, frames and the
   * native lambdas registered.
   */
  datatype Snapshot = Snapshot(chunk: Chunk, ip: nat, bp: nat, values: seq<Value>,
                               frames: seq<FiberStack.Frame>, natives: seq<NativeLambdaObj>)

  /** The status `cal` with the given arity gives on the values vs, as its handler decides it. */
  function CallStatus(arity: nat, vs: seq<Value>): Result<Status, Reason> {
    if arity + 1 > |vs| then Err(Panic)
    else match vs[|vs| - arity - 1]
      case Lambda(l) => if arity != l.arity then Err(WrongArity) else Ok(Running)
      case NativeLambda(_) => if arity != 1 then Err(WrongArity) else Ok(Running)
      case callee => Err(ValueNotCallable(callee))
  }

  /**
   * What `Fiber.Step` promises of the status of a step taken from the state s:
   * an ip past the code is InvalidCode, an unknown byte InvalidOpcode; for an
   * instruction that decodes, a successful step of any opcode but `ret` is
   * Running, only `ret` with no frame is Done, none yields, and where the
   * values alone decide it (every value opcode, `arr`, `map`, `clu`, `apn`,
   * `cal` and `ret`) the status is the one the opcode's handler gives.
   */
  predicate StepOwes(fl: FloatOps, s: Snapshot, status: Result<Status, Reason>) {
    (OpAt(s.chunk, s.ip).None? ==> status == Err(InvalidCode(s.ip)))
    && (OpAt(s.chunk, s.ip).Some? && OpcodeOf(OpAt(s.chunk, s.ip).value.byte).None? ==>
      status == Err(InvalidOpcode(RawCode(OpAt(s.chunk, s.ip).value.byte))))
    && (Fetch(s.chunk, s.ip).Some? ==>
      var i := Fetch(s.chunk, s.ip).value; var vs := s.values; var n := |vs|;
      (i.opcode != Opcodes.Ret && status.Ok? ==> status == Ok(Running))
      && (status == Ok(Done) <==> i.opcode == Opcodes.Ret && s.frames == [])
      && status != Ok(Yield)
      && (ValueOp(i.opcode) ==>
        var e := ValueStep(fl, s.natives, s.chunk.data, i, vs, s.bp);
        status == if e.Ok? then Ok(Running) else Err(e.error))
      && ((i.opcode.Arr? || i.opcode.Map?) ==> status == Ok(Running))
      && (i.opcode.Clu? ==> status == if n == 0 then Err(EmptyStack) else Ok(Running))
      && (i.opcode.Apn? ==>
        status == if n < 2 then Err(EmptyStack) else if vs[n - 2].Array? then Ok(Running) else Err(Type))
      && (i.opcode.Cal? ==> status == CallStatus(i.operand, vs))
      && (i.opcode.Ret? ==>
        status == if s.frames == [] then Ok(Done) else if n == 0 then Err(EmptyStack) else Ok(Running)))
  }

  /** The last step, taken from s, decoded a `ret` with no frame to return to. */
  predicate ReturnsFromMain(s: Snapshot) {
    Fetch(s.chunk, s.ip).Some? && Fetch(s.chunk, s.ip).value.opcode == Opcodes.Ret && s.frames == []
  }

  /**
   * Of steps each owing `Fiber.Step`'s promise from its snapshot and all
   * Running but the last, the loop finishes Ok exactly when the last step
   * was a `ret` of the main function.
   */
  lemma {:induction false} RunEndsOk(fl: FloatOps, steps: seq<Result<Status, Reason>>, snaps: seq<Snapshot>)
    requires |snaps| == |steps|
    requires forall k :: 0 <= k < |steps| ==> StepOwes(fl, snaps[k], steps[k])
    requires forall k :: 0 <= k < |steps| - 1 ==> steps[k] == Ok(Running)
    ensures RunOutcome(steps) == Finished(Ok(())) <==> steps != [] && ReturnsFromMain(snaps[|steps| - 1])
  {
    hide Fetch, OpAt, OpcodeOf, ValueStep, CallStatus;
    if steps != [] {
      var k := |steps| - 1;
      assert StepOwes(fl, snaps[k], steps[k]);
      if steps[k] != Ok(Running) {
        RunStops(steps, k);
        assert steps[k] != Ok(Yield) by {
          var s := snaps[k];
          if Fetch(s.chunk, s.ip).None? {
            assert OpAt(s.chunk, s.ip).None? || OpcodeOf(OpAt(s.chunk, s.ip).value.byte).None?;
          }
        }
        assert steps[k].Ok? ==> steps[k].value.Done?;
      } else {
        RunAllRunning(steps);
      }
    }
  }

  /** The snapshot of a fiber's current state. */
  ghost function SnapshotOf(f: Fiber): Snapshot
    reads f, f.stack, f.registry
  {
    Snapshot(f.chunk, f.ip, f.bp, f.stack.values, f.stack.frames, f.registry.lambdas)
  }

  /** One `Fiber.Step`, its status owing that step's promise from the state before it. */
  method StepOwing(f: Fiber) returns (status: Result<Status, Reason>)
    requires f.Valid()
    modifies f, f.stack, f.stack.upvalues, HeldAll(f.stack.values)
    ensures f.Valid()
    ensures StepOwes(f.floats, old(SnapshotOf(f)), status)
  {
    hide Fiber.Valid, ValueStep, Fiber.CaptureError, Fiber.Captures, Fiber.CurrentCell, Fiber.Untouched;
    status := f.Step();
  }

  class Vm {
    var registry: Option<NativeLambdaRegistry>
    var fiber: Option<Fiber>

    constructor ()
      ensures registry.None? && fiber.None?
    {
      registry := None;
      fiber := None;
    }

    /**
     * The set-up of `run`: decode the executable (a failure ends the run with
     * nothing installed), then install the registry and a new fiber on the
     * decoded function.
     */
    method Start(registry: NativeLambdaRegistry, executable: seq<u8>, floats: FloatOps) returns (r: Result<(), Reason>)
      modifies this
      ensures ParseBytes(executable).Err? ==>
        r == Err(LoadFailure(ParseBytes(executable).error)) && this.registry == old(this.registry) && fiber == old(fiber)
      ensures ParseBytes(executable).Ok? ==>
        var main := ParseBytes(executable).value;
        r.Ok? && this.registry == Some(registry) && fiber.Some? && fresh(fiber.value) && fresh(fiber.value.stack)
        && fiber.value.Valid() && fiber.value.registry == registry && fiber.value.floats == floats
        && fiber.value.chunk == main.chunk && fiber.value.ip == 0 && fiber.value.bp == 0
        && fiber.value.stack.values == [Lambda(Closure(main.arity, main.chunk, main.locals, []))] + Nulls(main.locals)
        && fiber.value.stack.frames == []
    {
      var decoded := ContainerParser.Load(executable);
      if decoded.Err? {
        return Err(LoadFailure(decoded.error));
      }
      this.registry := Some(registry);
      var f := new Fiber(registry, decoded.value, floats);
      fiber := Some(f);
      r := Ok(());
    }

    /**
     * The loop of `run`, for at most `fuel` steps of the installed fiber:
     * `steps` are the results of the steps taken, every one but the last is
     * Running, and the last is not Running unless the fuel ran out; the
     * outcome is what `RunOutcome` makes of them. A step may touch any object
     * the program reaches, those a native callback hands back included.
     */
    method Resume(fuel: nat) returns (r: Outcome, ghost steps: seq<Result<Status, Reason>>, ghost snaps: seq<Snapshot>)
      requires fiber.Some? && fiber.value.Valid()
      modifies iset o: object | AnyObject(o)
      ensures fiber == old(fiber) && registry == old(registry) && fiber.value.Valid()
      ensures r == RunOutcome(steps) && |steps| <= fuel
      ensures forall i :: 0 <= i < |steps| - 1 ==> steps[i] == Ok(Running)
      ensures |steps| < fuel ==> steps != [] && steps[|steps| - 1] != Ok(Running)
      ensures |snaps| == |steps| && forall i :: 0 <= i < |steps| ==> StepOwes(fiber.value.floats, snaps[i], steps[i])
      ensures steps != [] ==> snaps[0] == old(SnapshotOf(fiber.value))
      ensures r == Finished(Ok(())) <==> steps != [] && ReturnsFromMain(snaps[|steps| - 1])
    {
      hide StepOwes, RunOutcome, ReturnsFromMain, Fiber.Valid, HeldAll;
      var f := fiber.value;
      steps, snaps := [], [];
      var remaining := fuel;
      while remaining > 0
        invariant fiber == old(fiber) && registry == old(registry) && f == fiber.value && f.Valid()
        invariant |steps| + remaining == fuel && |snaps| == |steps|
        invariant forall i :: 0 <= i < |steps| ==> steps[i] == Ok(Running)
        invariant forall i :: 0 <= i < |steps| ==> StepOwes(f.floats, snaps[i], steps[i])
        invariant steps == [] ==> SnapshotOf(f) == old(SnapshotOf(f))
        invariant steps != [] ==> snaps[0] == old(SnapshotOf(f))
        decreases remaining
      {
        ghost var snap := SnapshotOf(f);
        var status := StepOwing(f);
        steps, snaps := steps + [status], snaps + [snap];
        if status != Ok(Running) {
          RunStops(steps, |steps| - 1);
          RunEndsOk(f.floats, steps, snaps);
          return Finished(if status.Err? then Err(status.error) else Ok(())), steps, snaps;
        }
        remaining := remaining - 1;
      }
      RunAllRunning(steps);
      RunEndsOk(f.floats, steps, snaps);
      r := OutOfFuel;
    }

    /**
     * `run`: the set-up, whose failure is the outcome, then the loop, for at
     * most `fuel` steps.
     */
    method Run(registry: NativeLambdaRegistry, executable: seq<u8>, floats: FloatOps, fuel: nat)
      returns (r: Outcome, ghost steps: seq<Result<Status, Reason>>, ghost snaps: seq<Snapshot>)
      modifies iset o: object | AnyObject(o)
      ensures ParseBytes(executable).Err? ==>
        r == Finished(Err(LoadFailure(ParseBytes(executable).error))) && steps == []
        && this.registry == old(this.registry) && fiber == old(fiber)
      ensures ParseBytes(executable).Ok? ==>
        this.registry == Some(registry) && fiber.Some? && fiber.value.Valid() && fiber.value.registry == registry
        && r == RunOutcome(steps) && |steps| <= fuel
        && (forall i :: 0 <= i < |steps| - 1 ==> steps[i] == Ok(Running))
        && (|steps| < fuel ==> steps != [] && steps[|steps| - 1] != Ok(Running))
        && |snaps| == |steps| && (forall i :: 0 <= i < |steps| ==> StepOwes(floats, snaps[i], steps[i]))
        && (steps != [] ==>
          var main := ParseBytes(executable).value;
          snaps[0] == Snapshot(main.chunk, 0, 0, [Lambda(Closure(main.arity, main.chunk, main.locals, []))] + Nulls(main.locals),
                               [], old(registry.lambdas)))
        && (r == Finished(Ok(())) <==> steps != [] && ReturnsFromMain(snaps[|steps| - 1]))
    {
      hide StepOwes, ReturnsFromMain, RunOutcome, Fiber.Valid;
      var started := Start(registry, executable, floats);
      if started.Err? {
        return Finished(Err(started.error)), [], [];
      }
      r, steps, snaps := Resume(fuel);
    }

    /**
     * `step`: one instruction of the fiber, its status dropped; with no
     * fiber installed the unwrap panics. `status` is the fiber's own result,
     * and the step does what `Executed` says of the fetched instruction.
     */
    method Step() returns (r: Result<(), Reason>, ghost status: Result<Status, Reason>)
      requires fiber.Some? ==> fiber.value.Valid()
      modifies if fiber.Some? then {fiber.value, fiber.value.stack} + (set c | c in fiber.value.stack.upvalues) + HeldAll(fiber.value.stack.values) else {}
      ensures fiber == old(fiber) && registry == old(registry)
      ensures fiber.None? ==> r == Err(Panic)
      ensures fiber.Some? ==> fiber.value.Valid()
      ensures fiber.Some? && OpAt(old(fiber.value.chunk), old(fiber.value.ip)).None? ==>
        r == Err(InvalidCode(old(fiber.value.ip)))
      ensures (fiber.Some? && OpAt(old(fiber.value.chunk), old(fiber.value.ip)).Some?
        && OpcodeOf(OpAt(old(fiber.value.chunk), old(fiber.value.ip)).value.byte).None?) ==>
        r == Err(InvalidOpcode(RawCode(OpAt(old(fiber.value.chunk), old(fiber.value.ip)).value.byte)))
      ensures fiber.Some? ==> r == Unit(status)
      ensures fiber.Some? && Fetch(old(fiber.value.chunk), old(fiber.value.ip)).Some? ==>
        fiber.value.Executed(Fetch(old(fiber.value.chunk), old(fiber.value.ip)).value, status)
    {
      if fiber.None? {
        return Err(Panic), Err(Panic);
      }
      var stepped := fiber.value.Step();
      status := stepped;
      if stepped.Err? {
        return Err(stepped.error), stepped;
      }
      r := Ok(());
    }
  }
}
