/**
 * The chunk invariant across scripting-language-2's parser, as the parser is
 * written. `push_load` hands a repeated name the table's size and the
 * assignment rule takes back an instruction but not its position, so the
 * chunks are not `Valid`; what every chunk `parse` yields does satisfy is:
 *
 *   - each Push names a constant, each Load and Store an index no larger
 *     than the identifier table's size (`Bounded`);
 *   - it holds one position more than instructions for every Store, since
 *     each assignment leaves the position of the Load it took back.
 *
 * The lemmas follow the parser's own recursion, one per level function.
 */
module Sl2ParserValid {
  import opened Wrappers
  import Sl2Token
  import opened Sl2Chunk
  import opened Sl2Parser

  /** The number of Store instructions. */
  function StoreCount(code: seq<Instruction>): nat {
    if |code| == 0 then 0
    else StoreCount(code[..|code| - 1]) + (if code[|code| - 1].Store? then 1 else 0)
  }

  /** Positions beyond one per instruction and one per Store. */
  function Excess(st: ChunkState): int {
    |st.poses| - |st.instructions| - StoreCount(st.instructions)
  }

  /** An instruction names a constant, or an identifier index no larger than the table's size. */
  predicate Within(st: ChunkState, i: Instruction) {
    match i
    case Push(k) => k < |st.constants|
    case Load(k) => k <= |st.identifiers|
    case Store(k) => k <= |st.identifiers|
    case _ => true
  }

  /** Every instruction is `Within` the chunk, and the table hands out indices below its size. */
  predicate Bounded(st: ChunkState) {
    && (forall i :: 0 <= i < |st.instructions| ==> Within(st, st.instructions[i]))
    && (forall n :: n in st.identifiers ==> st.identifiers[n] < |st.identifiers|)
  }

  /** A valid chunk is bounded with no excess, so the invariant here is the weaker one. */
  lemma ValidIsBounded(st: ChunkState)
    requires Valid(st) && StoreCount(st.instructions) == 0
    ensures Bounded(st) && Excess(st) == 0
  {
    assert forall i :: 0 <= i < |st.instructions| ==> InRange(st, st.instructions[i]);
  }

  lemma StoreCountPushed(code: seq<Instruction>, i: Instruction)
    ensures StoreCount(code + [i]) == StoreCount(code) + (if i.Store? then 1 else 0)
  {
    assert (code + [i])[..|code|] == code;
  }

  /** `push` of an instruction within the chunk keeps it bounded; a Store uses up one excess position. */
  lemma PushedBounded(st: ChunkState, i: Instruction, pos: Sl2Token.Pos)
    requires Bounded(st) && Within(st, i)
    ensures Bounded(Pushed(st, i, pos))
    ensures Excess(Pushed(st, i, pos)) == Excess(st) - (if i.Store? then 1 else 0)
  {
    var r := Pushed(st, i, pos);
    assert forall k :: 0 <= k < |st.instructions| ==> r.instructions[k] == st.instructions[k];
    StoreCountPushed(st.instructions, i);
  }

  lemma PushedConstantBounded(st: ChunkState, v: Value, pos: Sl2Token.Pos)
    requires Bounded(st)
    ensures Bounded(PushedConstant(st, v, pos)) && Excess(PushedConstant(st, v, pos)) == Excess(st)
    ensures |PushedConstant(st, v, pos).identifiers| == |st.identifiers|
  {
    var r := PushedConstant(st, v, pos);
    assert forall k :: 0 <= k < |st.instructions| ==> r.instructions[k] == st.instructions[k];
    StoreCountPushed(st.instructions, Push(|st.constants|));
  }

  lemma LoadedAsWrittenBounded(st: ChunkState, name: string, pos: Sl2Token.Pos)
    requires Bounded(st)
    ensures Bounded(LoadedAsWritten(st, name, pos)) && Excess(LoadedAsWritten(st, name, pos)) == Excess(st)
    ensures |LoadedAsWritten(st, name, pos).identifiers| >= |st.identifiers|
  {
    LoadedAsWrittenSpec(st, name, pos);
    var r := LoadedAsWritten(st, name, pos);
    assert forall k :: 0 <= k < |st.instructions| ==> r.instructions[k] == st.instructions[k];
    StoreCountPushed(st.instructions, Load(|st.identifiers|));
  }

  /** Taking back a Load keeps the chunk bounded and leaves one excess position. */
  lemma PoppedAsWrittenBounded(st: ChunkState)
    requires Bounded(st) && |st.instructions| > 0 && st.instructions[|st.instructions| - 1].Load?
    ensures Bounded(PoppedAsWritten(st)) && Excess(PoppedAsWritten(st)) == Excess(st) + 1
  {
    var r := PoppedAsWritten(st);
    assert forall k :: 0 <= k < |r.instructions| ==> r.instructions[k] == st.instructions[k];
  }

  /** What a level preserves when it succeeds: boundedness, the excess, and the size of the identifier table. */
  predicate Keeps(st: ChunkState, r: Parsed) {
    r.failure.None? ==> Bounded(r.state) && Excess(r.state) == Excess(st) && |r.state.identifiers| >= |st.identifiers|
  }

  lemma {:induction false} LevelBounded(level: Level, tokens: seq<Sl2Token.Token>, path: string, p: nat, st: ChunkState)
    requires Bounded(st)
    ensures Keeps(st, ParseLevel(level, tokens, path, p, st))
    decreases Remaining(tokens, p), Rank(level), 1
  {
    match level
    case Term => TermBounded(tokens, path, p, st);
    case Unary => UnaryBounded(tokens, path, p, st);
    case Exponential => PowerBounded(tokens, path, p, st);
    case Assignment => AssignmentBounded(tokens, path, p, st);
    case LogicalLoop | AdditiveLoop | MultiplicativeLoop => LoopBounded(level, tokens, path, p, st);
    case Logical | Additive | Multiplicative => LeftAssociativeBounded(level, tokens, path, p, st);
  }

  lemma TermBounded(tokens: seq<Sl2Token.Token>, path: string, p: nat, st: ChunkState)
    requires Bounded(st)
    ensures Keeps(st, TermOperation(tokens, path, p, st))
  {
    if p < |tokens| {
      var token := tokens[p];
      if token.kind.Identifier? {
        LoadedAsWrittenBounded(st, token.kind.name, token.pos);
      } else if token.kind.Number? {
        PushedConstantBounded(st, Number(token.kind.bits), token.pos);
      }
    }
  }

  lemma {:induction false} UnaryBounded(tokens: seq<Sl2Token.Token>, path: string, p: nat, st: ChunkState)
    requires Bounded(st)
    ensures Keeps(st, UnaryOperation(tokens, path, p, st))
    decreases Remaining(tokens, p), Rank(Unary), 0
  {
    if KindAt(tokens, p) == Some(Sl2Token.Not) || KindAt(tokens, p) == Some(Sl2Token.Subtract) {
      LevelBounded(Unary, tokens, path, p + 1, st);
      var operator := tokens[p];
      var operand := ParseLevel(Unary, tokens, path, p + 1, st);
      if operand.failure.None? {
        var instruction := if operator.kind == Sl2Token.Subtract then Negate else InstructionOf(operator).value;
        PushedBounded(operand.state, instruction, operator.pos);
      }
    } else {
      LevelBounded(Term, tokens, path, p, st);
    }
  }

  lemma {:induction false} PowerBounded(tokens: seq<Sl2Token.Token>, path: string, p: nat, st: ChunkState)
    requires Bounded(st)
    ensures Keeps(st, PowerOperation(tokens, path, p, st))
    decreases Remaining(tokens, p), Rank(Exponential), 0
  {
    hide ParseLevel, Bounded;
    LevelBounded(Unary, tokens, path, p, st);
    var left := ParseLevel(Unary, tokens, path, p, st);
    if left.failure.None? && KindAt(tokens, left.next) == Some(Sl2Token.Power) {
      LevelBounded(Exponential, tokens, path, left.next + 1, left.state);
      var operator := tokens[left.next];
      var right := ParseLevel(Exponential, tokens, path, left.next + 1, left.state);
      if right.failure.None? {
        PushedBounded(right.state, InstructionOf(operator).value, operator.pos);
      }
    }
  }

  lemma {:induction false} LeftAssociativeBounded(level: Level, tokens: seq<Sl2Token.Token>, path: string, p: nat, st: ChunkState)
    requires Bounded(st) && IsLeftAssociative(level)
    ensures Keeps(st, LeftAssociative(level, tokens, path, p, st))
    decreases Remaining(tokens, p), Rank(level), 0
  {
    LevelBounded(Operand(level), tokens, path, p, st);
    var left := ParseLevel(Operand(level), tokens, path, p, st);
    if left.failure.None? {
      LevelBounded(LoopOf(level), tokens, path, left.next, left.state);
    }
  }

  lemma {:induction false} LoopBounded(level: Level, tokens: seq<Sl2Token.Token>, path: string, p: nat, st: ChunkState)
    requires Bounded(st) && IsLoop(level)
    ensures Keeps(st, OperatorLoop(level, tokens, path, p, st))
    decreases Remaining(tokens, p), Rank(level), 0
  {
    if LoopOperator(level, KindAt(tokens, p)) {
      LevelBounded(Operand(level), tokens, path, p + 1, st);
      var right := ParseLevel(Operand(level), tokens, path, p + 1, st);
      if right.failure.None? {
        var operator := tokens[p];
        PushedBounded(right.state, InstructionOf(operator).value, operator.pos);
        var pushed := Pushed(right.state, InstructionOf(operator).value, operator.pos);
        LevelBounded(level, tokens, path, right.next, pushed);
      }
    }
  }

  lemma {:induction false} AssignmentBounded(tokens: seq<Sl2Token.Token>, path: string, p: nat, st: ChunkState)
    requires Bounded(st)
    ensures Keeps(st, AssignmentOperation(tokens, path, p, st))
    decreases Remaining(tokens, p), Rank(Assignment), 0
  {
    LevelBounded(Logical, tokens, path, p, st);
    var left := ParseLevel(Logical, tokens, path, p, st);
    if left.failure.None? && KindAt(tokens, left.next) == Some(Sl2Token.Assign) {
      var last := left.state.instructions[|left.state.instructions| - 1];
      assert Within(left.state, last);
      if last.Load? {
        PoppedAsWrittenBounded(left.state);
        var popped := PoppedAsWritten(left.state);
        LevelBounded(Assignment, tokens, path, left.next + 1, popped);
        var right := ParseLevel(Assignment, tokens, path, left.next + 1, popped);
        if right.failure.None? {
          PushedBounded(right.state, Store(last.index), tokens[left.next].pos);
        }
      }
    }
  }

  /**
   * Every chunk `parse` yields is bounded, and holds exactly one position per
   * instruction plus one per Store.
   */
  lemma {:induction false} ChunksBounded(tokens: seq<Sl2Token.Token>, path: string, p: nat)
    ensures forall k :: 0 <= k < |Chunks(tokens, path, p)| && Chunks(tokens, path, p)[k].Ok? ==>
      var c := Chunks(tokens, path, p)[k].value;
      Bounded(c) && |c.poses| == |c.instructions| + StoreCount(c.instructions)
    decreases Remaining(tokens, p)
  {
    var n := NextChunk(tokens, path, p);
    if n.Some? {
      assert Excess(Empty(path)) == 0;
      LevelBounded(Assignment, tokens, path, p, Empty(path));
      if n.value.failure != Some(Panic) {
        ChunksBounded(tokens, path, n.value.next);
      }
    }
  }

  /**
   * An identifier followed by `=` or end of file is, at the logical level,
   * one Load as `push_load` writes it.
   */
  lemma IdentifierOperand(tokens: seq<Sl2Token.Token>, path: string, i: nat, st: ChunkState, a: string)
    requires i + 1 < |tokens| && tokens[i].kind == Sl2Token.Identifier(a)
    requires tokens[i + 1].kind == Sl2Token.Assign || tokens[i + 1].kind == Sl2Token.EndOfFile
    ensures ParseLevel(Logical, tokens, path, i, st) == Parsed(LoadedAsWritten(st, a, tokens[i].pos), i + 1, None)
  {
    var loaded := LoadedAsWritten(st, a, tokens[i].pos);
    var j := i + 1;
    assert ParseLevel(Term, tokens, path, i, st) == Parsed(loaded, j, None);
    assert ParseLevel(Unary, tokens, path, i, st) == Parsed(loaded, j, None);
    assert ParseLevel(Exponential, tokens, path, i, st) == Parsed(loaded, j, None);
    assert ParseLevel(MultiplicativeLoop, tokens, path, j, loaded) == Parsed(loaded, j, None);
    assert ParseLevel(Multiplicative, tokens, path, i, st) == Parsed(loaded, j, None);
    assert ParseLevel(AdditiveLoop, tokens, path, j, loaded) == Parsed(loaded, j, None);
    assert ParseLevel(Additive, tokens, path, i, st) == Parsed(loaded, j, None);
    assert ParseLevel(LogicalLoop, tokens, path, j, loaded) == Parsed(loaded, j, None);
  }

  /** The assignment level of `a = a`: load `a`, pop it, load `a` again, store. */
  lemma SelfAssignmentLevel(tokens: seq<Sl2Token.Token>, path: string, a: string, p: Sl2Token.Pos, q: Sl2Token.Pos, r: Sl2Token.Pos, end: Sl2Token.Pos)
    requires tokens == [Sl2Token.Token(p, Sl2Token.Identifier(a)), Sl2Token.Token(q, Sl2Token.Assign),
                        Sl2Token.Token(r, Sl2Token.Identifier(a)), Sl2Token.Token(end, Sl2Token.EndOfFile)]
    ensures ParseLevel(Assignment, tokens, path, 0, Empty(path))
         == Parsed(Pushed(LoadedAsWritten(PoppedAsWritten(LoadedAsWritten(Empty(path), a, p)), a, r), Store(0), q), 3, None)
  {
    var e0 := Empty(path);
    var loaded := LoadedAsWritten(e0, a, p);
    IdentifierOperand(tokens, path, 0, e0, a);
    var popped := PoppedAsWritten(loaded);
    var again := LoadedAsWritten(popped, a, r);
    IdentifierOperand(tokens, path, 2, popped, a);
    assert ParseLevel(Assignment, tokens, path, 2, popped) == Parsed(again, 3, None);
  }

  /**
   * `a = a` as the parser is written: the right-hand `a` is loaded by the
   * table's size, 1, which names no slot, and the chunk keeps three
   * positions for its two instructions.
   */
  lemma SelfAssignmentAsWritten(path: string, a: string, p: Sl2Token.Pos, q: Sl2Token.Pos, r: Sl2Token.Pos, end: Sl2Token.Pos)
    ensures var tokens := [Sl2Token.Token(p, Sl2Token.Identifier(a)), Sl2Token.Token(q, Sl2Token.Assign),
                           Sl2Token.Token(r, Sl2Token.Identifier(a)), Sl2Token.Token(end, Sl2Token.EndOfFile)];
      var c := Chunks(tokens, path, 0);
      && |c| == 1 && c[0].Ok?
      && c[0].value.instructions == [Load(1), Store(0)]
      && c[0].value.identifiers == map[a := 0]
      && c[0].value.poses == [p, r, q]
      && !Valid(c[0].value)
  {
    var tokens := [Sl2Token.Token(p, Sl2Token.Identifier(a)), Sl2Token.Token(q, Sl2Token.Assign),
                   Sl2Token.Token(r, Sl2Token.Identifier(a)), Sl2Token.Token(end, Sl2Token.EndOfFile)];
    var again := LoadedAsWritten(PoppedAsWritten(LoadedAsWritten(Empty(path), a, p)), a, r);
    assert again.instructions == [Load(1)];
    var whole := Pushed(again, Store(0), q);
    SelfAssignmentLevel(tokens, path, a, p, q, r, end);
    assert Chunks(tokens, path, 3) == [];
    assert !InRange(whole, whole.instructions[0]);
  }
}
