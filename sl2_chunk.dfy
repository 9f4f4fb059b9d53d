/**
 * scripting-language-2's chunk: the constants, identifier table, positions
 * and instructions one parsed expression compiles to. `Push(i)` pushes the
 * constant at index i, `Load(i)`/`Store(i)` name the identifier the table
 * gives index i.
 */
module Sl2Chunk {
  import opened Wrappers
  import Sl2Token

  datatype Instruction =
    | Store(index: nat)
    | Load(index: nat)
    | Push(index: nat)
    | Pop
    | And
    | Or
    | Not
    | Add
    | Subtract
    | Multiply
    | Divide
    | Power
    | Negate
    | Assign

  /** A constant; the number is an f32 bit pattern. */
  datatype Value = Number(bits: nat)

  /** `Instruction::from_token`: the instruction an operator token compiles to. */
  function InstructionOf(t: Sl2Token.Token): (r: Option<Instruction>)
    ensures r.Some? ==> OperatorToken(r.value) == Some(t.kind)
  {
    match t.kind
    case And => Some(And)
    case Or => Some(Or)
    case Not => Some(Not)
    case Add => Some(Add)
    case Subtract => Some(Subtract)
    case Multiply => Some(Multiply)
    case Divide => Some(Divide)
    case Power => Some(Power)
    case _ => None
  }

  /** The operator token an instruction is compiled from, for the eight that have one. */
  function OperatorToken(i: Instruction): Option<Sl2Token.TokenKind> {
    match i
    case And => Some(Sl2Token.And)
    case Or => Some(Sl2Token.Or)
    case Not => Some(Sl2Token.Not)
    case Add => Some(Sl2Token.Add)
    case Subtract => Some(Sl2Token.Subtract)
    case Multiply => Some(Sl2Token.Multiply)
    case Divide => Some(Sl2Token.Divide)
    case Power => Some(Sl2Token.Power)
    case _ => None
  }

  /** Every operator instruction comes back from its own token, so the two tables are inverse. */
  lemma OperatorTokenInverse(i: Instruction, pos: Sl2Token.Pos)
    requires OperatorToken(i).Some?
    ensures InstructionOf(Sl2Token.Token(pos, OperatorToken(i).value)) == Some(i)
  {
  }

  /** `Value::from_token`: only a number token is a constant, and it keeps its value. */
  function ValueOf(t: Sl2Token.Token): (r: Option<Value>)
    ensures r.Some? <==> t.kind.Number?
    ensures r.Some? ==> r.value.bits == t.kind.bits
  {
    match t.kind
    case Number(bits) => Some(Number(bits))
    case _ => None
  }

  /** The contents of a chunk. */
  datatype ChunkState = ChunkState(
    path: string,
    constants: seq<Value>,
    identifiers: map<string, nat>,
    poses: seq<Sl2Token.Pos>,
    instructions: seq<Instruction>)

  function Empty(path: string): ChunkState {
    ChunkState(path, [], map[], [], [])
  }

  /** An instruction names something the chunk holds. */
  predicate InRange(st: ChunkState, i: Instruction) {
    match i
    case Push(k) => k < |st.constants|
    case Load(k) => k < |st.identifiers|
    case Store(k) => k < |st.identifiers|
    case _ => true
  }

  /** One position per instruction. */
  predicate Aligned(st: ChunkState) {
    |st.poses| == |st.instructions|
  }

  /**
   * The chunk invariant: one position per instruction, every Push names a
   * constant, every Load and Store an index below the table's size, and the
   * table hands out indices below its size.
   */
  predicate Valid(st: ChunkState) {
    && Aligned(st)
    && (forall i :: 0 <= i < |st.instructions| ==> InRange(st, st.instructions[i]))
    && (forall n :: n in st.identifiers ==> st.identifiers[n] < |st.identifiers|)
  }

  /** `push`: one instruction and its position, appended together. */
  function Pushed(st: ChunkState, i: Instruction, pos: Sl2Token.Pos): ChunkState {
    st.(poses := st.poses + [pos], instructions := st.instructions + [i])
  }

  /** An instruction that names something the chunk holds keeps the chunk valid. */
  lemma PushedValid(st: ChunkState, i: Instruction, pos: Sl2Token.Pos)
    requires Valid(st) && InRange(st, i)
    ensures Valid(Pushed(st, i, pos))
  {
    var r := Pushed(st, i, pos);
    assert forall k :: 0 <= k < |st.instructions| ==> r.instructions[k] == st.instructions[k];
  }

  /** `push_push`: the constant goes to the end of the pool and a Push of its index is emitted. */
  function PushedConstant(st: ChunkState, v: Value, pos: Sl2Token.Pos): ChunkState {
    st.(constants := st.constants + [v], poses := st.poses + [pos],
        instructions := st.instructions + [Push(|st.constants|)])
  }

  /** The emitted Push names the new constant; nothing before it changes, and the chunk stays valid. */
  lemma PushedConstantValid(st: ChunkState, v: Value, pos: Sl2Token.Pos)
    ensures var r := PushedConstant(st, v, pos);
      && r.instructions[..|st.instructions|] == st.instructions
      && r.instructions[|st.instructions|].Push?
      && r.instructions[|st.instructions|].index < |r.constants|
      && r.constants[r.instructions[|st.instructions|].index] == v
      && r.constants[..|st.constants|] == st.constants
      && (Valid(st) ==> Valid(r))
  {
    var r := PushedConstant(st, v, pos);
    assert forall k :: 0 <= k < |st.instructions| ==> r.instructions[k] == st.instructions[k];
  }

  /** The table once `name` is entered: a new name gets the table's size, a known one keeps its own. */
  function Entered(ids: map<string, nat>, name: string): map<string, nat> {
    if name in ids then ids else ids[name := |ids|]
  }

  /** Entering a name adds exactly that key, keeps every entry, and hands a new name the next index. */
  lemma EnteredSpec(ids: map<string, nat>, name: string)
    ensures var r := Entered(ids, name);
      && name in r && r.Keys == ids.Keys + {name}
      && (forall n :: n in ids ==> r[n] == ids[n])
      && (name !in ids ==> r[name] == |ids| && |r| == |ids| + 1)
      && (name in ids ==> r == ids)
  {
  }

  /**
   * `push_load` as written: the table entry is made as `Entered` says, but the
   * emitted Load carries the table's size before the entry, even when the
   * name was already there.
   */
  function LoadedAsWritten(st: ChunkState, name: string, pos: Sl2Token.Pos): ChunkState {
    st.(identifiers := Entered(st.identifiers, name), poses := st.poses + [pos],
        instructions := st.instructions + [Load(|st.identifiers|)])
  }

  /**
   * What `push_load` as written does to the table and the code: the entry is
   * made as `Entered` says, the Load carries the old table size, and that
   * index names a slot of the table exactly when the name was new.
   */
  lemma LoadedAsWrittenSpec(st: ChunkState, name: string, pos: Sl2Token.Pos)
    ensures var r := LoadedAsWritten(st, name, pos);
      && r.identifiers == Entered(st.identifiers, name)
      && r.instructions == st.instructions + [Load(|st.identifiers|)]
      && r.poses == st.poses + [pos] && r.constants == st.constants
      && (|st.identifiers| < |r.identifiers| <==> name !in st.identifiers)
      && (name !in st.identifiers ==> r.identifiers[name] == |st.identifiers|)
  {
    EnteredSpec(st.identifiers, name);
  }

  /** A name used twice: the second Load names no identifier at all. */
  lemma RepeatedNameAsWritten(path: string, name: string, pos: Sl2Token.Pos)
    ensures var once := LoadedAsWritten(Empty(path), name, pos);
      var twice := LoadedAsWritten(once, name, pos);
      twice.identifiers == map[name := 0] && twice.instructions == [Load(0), Load(1)]
      && !Valid(twice)
  {
    var once := LoadedAsWritten(Empty(path), name, pos);
    var twice := LoadedAsWritten(once, name, pos);
    assert once.identifiers == map[name := 0];
    assert !InRange(twice, twice.instructions[1]);
  }

  /** `push_load` as intended: the Load carries the index the table holds for the name. */
  function Loaded(st: ChunkState, name: string, pos: Sl2Token.Pos): ChunkState {
    var ids := Entered(st.identifiers, name);
    st.(identifiers := ids, poses := st.poses + [pos], instructions := st.instructions + [Load(ids[name])])
  }

  /**
   * The emitted Load names the entry the table holds for the name, the table
   * gains at most that entry, and the chunk stays valid.
   */
  lemma LoadedValid(st: ChunkState, name: string, pos: Sl2Token.Pos)
    ensures var r := Loaded(st, name, pos);
      && r.identifiers == Entered(st.identifiers, name)
      && r.instructions == st.instructions + [Load(r.identifiers[name])]
      && |r.identifiers| >= |st.identifiers|
      && (Valid(st) ==> Valid(r))
  {
    EnteredSpec(st.identifiers, name);
    var r := Loaded(st, name, pos);
    assert forall k :: 0 <= k < |st.instructions| ==> r.instructions[k] == st.instructions[k];
  }

  /** A name already in the table is loaded by the index it was first given, and the table is unchanged. */
  lemma LoadKnownName(st: ChunkState, name: string, pos: Sl2Token.Pos)
    requires name in st.identifiers
    ensures Loaded(st, name, pos).identifiers == st.identifiers
    ensures Loaded(st, name, pos).instructions == st.instructions + [Load(st.identifiers[name])]
  {
  }

  /**
   * What the assignment rule does to the chunk as written: it pops the last
   * instruction but leaves its position behind.
   */
  function PoppedAsWritten(st: ChunkState): ChunkState
    requires |st.instructions| > 0
  {
    st.(instructions := st.instructions[..|st.instructions| - 1])
  }

  /** After the pop as written a chunk has one position more than it has instructions. */
  lemma PopAsWrittenMisaligns(st: ChunkState)
    requires Valid(st) && |st.instructions| > 0
    ensures |PoppedAsWritten(st).poses| == |PoppedAsWritten(st).instructions| + 1
    ensures !Valid(PoppedAsWritten(st))
  {
  }

  /** The pop as intended: the last instruction and its position, if there is one, go together. */
  function Popped(st: ChunkState): ChunkState
    requires |st.instructions| > 0
  {
    var poses := if |st.poses| > 0 then st.poses[..|st.poses| - 1] else st.poses;
    st.(poses := poses, instructions := st.instructions[..|st.instructions| - 1])
  }

  /** Popping undoes a push, and keeps a chunk valid. */
  lemma PoppedValid(st: ChunkState, i: Instruction, pos: Sl2Token.Pos)
    ensures Popped(Pushed(st, i, pos)) == st
    ensures |st.instructions| > 0 && Valid(st) ==> Valid(Popped(st))
  {
    assert (st.instructions + [i])[..|st.instructions|] == st.instructions;
    assert (st.poses + [pos])[..|st.poses|] == st.poses;
  }

  /** The chunk a parser fills: `new`, then `push`, `push_push` and `push_load` append to it. */
  class Chunk {
    var path: string
    var constants: seq<Value>
    var identifiers: map<string, nat>
    var poses: seq<Sl2Token.Pos>
    var instructions: seq<Instruction>

    function State(): ChunkState
      reads this
    {
      ChunkState(path, constants, identifiers, poses, instructions)
    }

    constructor (path: string)
      ensures State() == Empty(path)
    {
      this.path := path;
      constants := [];
      identifiers := map[];
      poses := [];
      instructions := [];
    }

    method Push(instruction: Instruction, pos: Sl2Token.Pos)
      modifies this
      ensures State() == Pushed(old(State()), instruction, pos)
    {
      poses := poses + [pos];
      instructions := instructions + [instruction];
    }

    method PushPush(constant: Value, pos: Sl2Token.Pos)
      modifies this
      ensures State() == PushedConstant(old(State()), constant, pos)
    {
      var index := |constants|;
      constants := constants + [constant];
      poses := poses + [pos];
      instructions := instructions + [Instruction.Push(index)];
    }

    /** `push_load` as written: the Load carries the table's size before the entry. */
    method PushLoad(identifier: string, pos: Sl2Token.Pos)
      modifies this
      ensures State() == LoadedAsWritten(old(State()), identifier, pos)
    {
      var index := |identifiers|;
      if identifier !in identifiers {
        identifiers := identifiers[identifier := index];
      }
      poses := poses + [pos];
      instructions := instructions + [Load(index)];
    }
  }
}
