/**
 * scripting-language-2's parser: one precedence level per function, loosest
 * first (assignment, and/or, +/-, * and /, ^, unary, term), each emitting its
 * operands before its operator into the chunk of the expression being parsed.
 *
 * The `Parser` class consumes the token stream; each level's method is
 * proved equal to a specification function over the token sequence, the
 * position of the next token and the chunk contents. The chunk a method
 * fills is passed in and handed back as a value.
 */
module Sl2Parser {
  import opened Wrappers
  import Sl2Token
  import opened Sl2Chunk

  datatype Message = CannotAssign | Unexpected(kind: Sl2Token.TokenKind)

  /** `Error::Parse`: a message, the parser's path and the position it refers to. */
  datatype Error = Parse(message: Message, path: string, pos: Sl2Token.Pos)

  /** How a parse can fail: a parse error, or a panic (an `unwrap` on an exhausted token stream). */
  datatype Failure = Fail(error: Error) | Panic

  /** The chunk, the index of the next token and the failure, if any, after a parse. */
  datatype Parsed = Parsed(state: ChunkState, next: nat, failure: Option<Failure>)

  /** `peek`: the kind of the token at p, if there is one. */
  function KindAt(tokens: seq<Sl2Token.Token>, p: nat): Option<Sl2Token.TokenKind> {
    if p < |tokens| then Some(tokens[p].kind) else None
  }

  /**
   * What every level guarantees: it never moves back, it consumes a token
   * unless it panics, and a success emits at least one instruction.
   */
  predicate Progress(st: ChunkState, p: nat, r: Parsed) {
    && r.next >= p
    && (r.failure != Some(Panic) ==> r.next > p)
    && (r.failure.None? ==> |r.state.instructions| > |st.instructions|)
  }

  /** What a loop level guarantees: the same, except that it may stop at once, consuming and emitting nothing. */
  predicate RestProgress(st: ChunkState, p: nat, r: Parsed) {
    && r.next >= p
    && (r.failure.None? ==> |r.state.instructions| >= |st.instructions|)
  }

  /**
   * The parser's precedence levels, loosest first; a `...Loop` level is the
   * `loop` of a left-associative level, run once its first operand is parsed.
   */
  datatype Level =
    | Assignment
    | Logical
    | LogicalLoop
    | Additive
    | AdditiveLoop
    | Multiplicative
    | MultiplicativeLoop
    | Exponential
    | Unary
    | Term

  /** The tokens left from p on. */
  function Remaining(tokens: seq<Sl2Token.Token>, p: nat): nat {
    if p < |tokens| then |tokens| - p else 0
  }

  /** A level only calls tighter levels at the same position. */
  function Rank(level: Level): nat {
    match level
    case Term => 0
    case Unary => 1
    case Exponential => 2
    case MultiplicativeLoop => 3
    case Multiplicative => 4
    case AdditiveLoop => 5
    case Additive => 6
    case LogicalLoop => 7
    case Logical => 8
    case Assignment => 9
  }

  predicate IsLoop(level: Level) {
    level == LogicalLoop || level == AdditiveLoop || level == MultiplicativeLoop
  }

  predicate IsLeftAssociative(level: Level) {
    level == Logical || level == Additive || level == Multiplicative
  }

  /** The two operator tokens a left-associative level accepts. */
  predicate LoopOperator(level: Level, kind: Option<Sl2Token.TokenKind>) {
    match level
    case LogicalLoop => kind == Some(Sl2Token.And) || kind == Some(Sl2Token.Or)
    case AdditiveLoop => kind == Some(Sl2Token.Add) || kind == Some(Sl2Token.Subtract)
    case MultiplicativeLoop => kind == Some(Sl2Token.Multiply) || kind == Some(Sl2Token.Divide)
    case _ => false
  }

  /** The level a left-associative level's operands are parsed at. */
  function Operand(level: Level): Level {
    match level
    case Logical => Additive
    case LogicalLoop => Additive
    case Additive => Multiplicative
    case AdditiveLoop => Multiplicative
    case _ => Exponential
  }

  /** The loop of a left-associative level. */
  function LoopOf(level: Level): Level {
    match level
    case Logical => LogicalLoop
    case Additive => AdditiveLoop
    case _ => MultiplicativeLoop
  }

  /** Parsing at `level` from token p into chunk st: the level's own function. */
  function ParseLevel(level: Level, tokens: seq<Sl2Token.Token>, path: string, p: nat, st: ChunkState): (r: Parsed)
    ensures IsLoop(level) ==> RestProgress(st, p, r)
    ensures !IsLoop(level) ==> Progress(st, p, r)
    decreases Remaining(tokens, p), Rank(level), 1
  {
    match level
    case Term => TermOperation(tokens, path, p, st)
    case Unary => UnaryOperation(tokens, path, p, st)
    case Exponential => PowerOperation(tokens, path, p, st)
    case Assignment => AssignmentOperation(tokens, path, p, st)
    case LogicalLoop | AdditiveLoop | MultiplicativeLoop => OperatorLoop(level, tokens, path, p, st)
    case Logical | Additive | Multiplicative => LeftAssociative(level, tokens, path, p, st)
  }

  /**
   * `parse_term`: an identifier is loaded (by `push_load` as written, see
   * `LoadedAsWritten`), a number pushed, any other token is unexpected, no
   * token is a panic.
   */
  function TermOperation(tokens: seq<Sl2Token.Token>, path: string, p: nat, st: ChunkState): (r: Parsed)
  {
    if p >= |tokens| then Parsed(st, p, Some(Panic))
    else
      var token := tokens[p];
      if token.kind.Identifier? then Parsed(LoadedAsWritten(st, token.kind.name, token.pos), p + 1, None)
      else match ValueOf(token)
        case Some(value) => Parsed(PushedConstant(st, value, token.pos), p + 1, None)
        case None => Parsed(st, p + 1, Some(Fail(Parse(Unexpected(token.kind), path, token.pos))))
  }

  /** `parse_unary_operation`: `not` or `-`, a unary operand, then Not or Negate; otherwise a term. */
  function UnaryOperation(tokens: seq<Sl2Token.Token>, path: string, p: nat, st: ChunkState): (r: Parsed)
    decreases Remaining(tokens, p), Rank(Unary), 0
  {
    if KindAt(tokens, p) == Some(Sl2Token.Not) || KindAt(tokens, p) == Some(Sl2Token.Subtract) then
      var operator := tokens[p];
      var operand := ParseLevel(Unary, tokens, path, p + 1, st);
      if operand.failure.Some? then operand
      else
        var instruction := if operator.kind == Sl2Token.Subtract then Negate else InstructionOf(operator).value;
        Parsed(Pushed(operand.state, instruction, operator.pos), operand.next, None)
    else ParseLevel(Term, tokens, path, p, st)
  }

  /** `parse_power_operation`: a unary operand, then optionally `^` and a power operand, so `^` groups to the right. */
  function PowerOperation(tokens: seq<Sl2Token.Token>, path: string, p: nat, st: ChunkState): (r: Parsed)
    decreases Remaining(tokens, p), Rank(Exponential), 0
  {
    var left := ParseLevel(Unary, tokens, path, p, st);
    if left.failure.Some? || KindAt(tokens, left.next) != Some(Sl2Token.Power) then left
    else
      var operator := tokens[left.next];
      var right := ParseLevel(Exponential, tokens, path, left.next + 1, left.state);
      if right.failure.Some? then right
      else Parsed(Pushed(right.state, InstructionOf(operator).value, operator.pos), right.next, None)
  }

  /**
   * `parse_multiply_operation`, `parse_add_operation` and
   * `parse_logical_operation`: an operand, then the level's loop.
   */
  function LeftAssociative(level: Level, tokens: seq<Sl2Token.Token>, path: string, p: nat, st: ChunkState): (r: Parsed)
    requires IsLeftAssociative(level)
    decreases Remaining(tokens, p), Rank(level), 0
  {
    var left := ParseLevel(Operand(level), tokens, path, p, st);
    if left.failure.Some? then left else ParseLevel(LoopOf(level), tokens, path, left.next, left.state)
  }

  /** The `loop` of a left-associative level: while one of its operators follows, an operand and the operator, so these group to the left. */
  function OperatorLoop(level: Level, tokens: seq<Sl2Token.Token>, path: string, p: nat, st: ChunkState): (r: Parsed)
    requires IsLoop(level)
    decreases Remaining(tokens, p), Rank(level), 0
  {
    if LoopOperator(level, KindAt(tokens, p)) then
      var operator := tokens[p];
      var right := ParseLevel(Operand(level), tokens, path, p + 1, st);
      if right.failure.Some? then right
      else ParseLevel(level, tokens, path, right.next, Pushed(right.state, InstructionOf(operator).value, operator.pos))
    else Parsed(st, p, None)
  }

  /**
   * `parse_assignment_operation`: a logical operand, then optionally `=`,
   * which takes back the operand's last instruction but leaves its position
   * in the chunk (`PoppedAsWritten`); a Load(i) becomes a
   * Store(i) after the right-hand side, anything else is "Cannot assign to
   * non-identifier" at that instruction's position.
   */
  function AssignmentOperation(tokens: seq<Sl2Token.Token>, path: string, p: nat, st: ChunkState): (r: Parsed)
    decreases Remaining(tokens, p), Rank(Assignment), 0
  {
    var left := ParseLevel(Logical, tokens, path, p, st);
    if left.failure.Some? || KindAt(tokens, left.next) != Some(Sl2Token.Assign) then left
    else
      var operator := tokens[left.next];
      var last := left.state.instructions[|left.state.instructions| - 1];
      var popped := PoppedAsWritten(left.state);
      if !last.Load? then
        if |left.state.poses| == 0 then Parsed(popped, left.next + 1, Some(Panic))
        else Parsed(popped, left.next + 1, Some(Fail(Parse(CannotAssign, path, left.state.poses[|left.state.poses| - 1]))))
      else
        var right := ParseLevel(Assignment, tokens, path, left.next + 1, popped);
        if right.failure.Some? then right
        else Parsed(Pushed(right.state, Store(last.index), operator.pos), right.next, None)
  }

  /** `parse_declaration`: one expression into a new chunk. */
  function Declaration(tokens: seq<Sl2Token.Token>, path: string, p: nat): (r: Parsed)
    ensures Progress(Empty(path), p, r)
  {
    ParseLevel(Assignment, tokens, path, p, Empty(path))
  }

  /** What a declaration yields: the chunk, or its failure. */
  function Outcome(d: Parsed): Result<ChunkState, Failure> {
    if d.failure.Some? then Err(d.failure.value) else Ok(d.state)
  }

  /** The iterator's `next`: nothing at end of file or when the tokens run out, else one declaration. */
  function NextChunk(tokens: seq<Sl2Token.Token>, path: string, p: nat): (r: Option<Parsed>)
    ensures r.None? <==> KindAt(tokens, p) == None || KindAt(tokens, p) == Some(Sl2Token.EndOfFile)
  {
    if KindAt(tokens, p) == None || KindAt(tokens, p) == Some(Sl2Token.EndOfFile) then None
    else Some(Declaration(tokens, path, p))
  }

  /** `parse`: the declarations up to end of file; a panic ends the sequence. */
  function Chunks(tokens: seq<Sl2Token.Token>, path: string, p: nat): seq<Result<ChunkState, Failure>>
    decreases Remaining(tokens, p)
  {
    match NextChunk(tokens, path, p)
    case None => []
    case Some(d) =>
      if d.failure == Some(Panic) then [Err(Panic)]
      else [Outcome(d)] + Chunks(tokens, path, d.next)
  }

  class Parser {
    const path: string
    const tokens: seq<Sl2Token.Token>
    /** The index of the token `peek` sees. */
    var next: nat

    constructor (path: string, tokens: seq<Sl2Token.Token>)
      ensures this.path == path && this.tokens == tokens && next == 0
    {
      this.path := path;
      this.tokens := tokens;
      next := 0;
    }

    method ParseTerm(chunk: ChunkState) returns (st: ChunkState, r: Option<Failure>)
      modifies this
      ensures Parsed(st, next, r) == ParseLevel(Term, tokens, path, old(next), chunk)
    {
      if next >= |tokens| {
        return chunk, Some(Panic);
      }
      var token := tokens[next];
      next := next + 1;
      if token.kind.Identifier? {
        return LoadedAsWritten(chunk, token.kind.name, token.pos), None;
      }
      var value := ValueOf(token);
      if value.Some? {
        return PushedConstant(chunk, value.value, token.pos), None;
      }
      st, r := chunk, Some(Fail(Parse(Unexpected(token.kind), path, token.pos)));
    }

    method ParseUnaryOperation(chunk: ChunkState) returns (st: ChunkState, r: Option<Failure>)
      modifies this
      ensures Parsed(st, next, r) == ParseLevel(Unary, tokens, path, old(next), chunk)
      decreases Remaining(tokens, next)
    {
      var negate := false;
      if KindAt(tokens, next) == Some(Sl2Token.Subtract) {
        negate := true;
      } else if KindAt(tokens, next) != Some(Sl2Token.Not) {
        st, r := ParseTerm(chunk);
        return;
      }
      var operator := tokens[next];
      next := next + 1;
      st, r := ParseUnaryOperation(chunk);
      if r.Some? {
        return;
      }
      if negate {
        st := Pushed(st, Negate, operator.pos);
      } else {
        st := Pushed(st, InstructionOf(operator).value, operator.pos);
      }
    }

    method ParsePowerOperation(chunk: ChunkState) returns (st: ChunkState, r: Option<Failure>)
      modifies this
      ensures Parsed(st, next, r) == ParseLevel(Exponential, tokens, path, old(next), chunk)
      decreases Remaining(tokens, next)
    {
      st, r := ParseUnaryOperation(chunk);
      if r.Some? || KindAt(tokens, next) != Some(Sl2Token.Power) {
        return;
      }
      var operator := tokens[next];
      var instruction := InstructionOf(operator).value;
      next := next + 1;
      st, r := ParsePowerOperation(st);
      if r.Some? {
        return;
      }
      st := Pushed(st, instruction, operator.pos);
    }

    method ParseMultiplyOperation(chunk: ChunkState) returns (st: ChunkState, r: Option<Failure>)
      modifies this
      ensures Parsed(st, next, r) == ParseLevel(Multiplicative, tokens, path, old(next), chunk)
    {
      st, r := ParsePowerOperation(chunk);
      if r.Some? {
        return;
      }
      while true
        invariant ParseLevel(MultiplicativeLoop, tokens, path, next, st) == ParseLevel(Multiplicative, tokens, path, old(next), chunk)
        decreases Remaining(tokens, next)
      {
        if KindAt(tokens, next) != Some(Sl2Token.Multiply) && KindAt(tokens, next) != Some(Sl2Token.Divide) {
          return st, None;
        }
        var operator := tokens[next];
        var instruction := InstructionOf(operator).value;
        next := next + 1;
        st, r := ParsePowerOperation(st);
        if r.Some? {
          return;
        }
        st := Pushed(st, instruction, operator.pos);
      }
    }

    method ParseAddOperation(chunk: ChunkState) returns (st: ChunkState, r: Option<Failure>)
      modifies this
      ensures Parsed(st, next, r) == ParseLevel(Additive, tokens, path, old(next), chunk)
    {
      st, r := ParseMultiplyOperation(chunk);
      if r.Some? {
        return;
      }
      while true
        invariant ParseLevel(AdditiveLoop, tokens, path, next, st) == ParseLevel(Additive, tokens, path, old(next), chunk)
        decreases Remaining(tokens, next)
      {
        if KindAt(tokens, next) != Some(Sl2Token.Add) && KindAt(tokens, next) != Some(Sl2Token.Subtract) {
          return st, None;
        }
        var operator := tokens[next];
        var instruction := InstructionOf(operator).value;
        next := next + 1;
        st, r := ParseMultiplyOperation(st);
        if r.Some? {
          return;
        }
        st := Pushed(st, instruction, operator.pos);
      }
    }

    method ParseLogicalOperation(chunk: ChunkState) returns (st: ChunkState, r: Option<Failure>)
      modifies this
      ensures Parsed(st, next, r) == ParseLevel(Logical, tokens, path, old(next), chunk)
    {
      st, r := ParseAddOperation(chunk);
      if r.Some? {
        return;
      }
      while true
        invariant ParseLevel(LogicalLoop, tokens, path, next, st) == ParseLevel(Logical, tokens, path, old(next), chunk)
        decreases Remaining(tokens, next)
      {
        if KindAt(tokens, next) != Some(Sl2Token.And) && KindAt(tokens, next) != Some(Sl2Token.Or) {
          return st, None;
        }
        var operator := tokens[next];
        var instruction := InstructionOf(operator).value;
        next := next + 1;
        st, r := ParseAddOperation(st);
        if r.Some? {
          return;
        }
        st := Pushed(st, instruction, operator.pos);
      }
    }

    method ParseAssignmentOperation(chunk: ChunkState) returns (st: ChunkState, r: Option<Failure>)
      modifies this
      ensures Parsed(st, next, r) == ParseLevel(Assignment, tokens, path, old(next), chunk)
      decreases Remaining(tokens, next)
    {
      st, r := ParseLogicalOperation(chunk);
      if r.Some? || KindAt(tokens, next) != Some(Sl2Token.Assign) {
        return;
      }
      var operator := tokens[next];
      next := next + 1;
      var instruction := st.instructions[|st.instructions| - 1];
      var poses := st.poses;
      st := PoppedAsWritten(st);
      if !instruction.Load? {
        if |poses| == 0 {
          return st, Some(Panic);
        }
        return st, Some(Fail(Parse(CannotAssign, path, poses[|poses| - 1])));
      }
      st, r := ParseAssignmentOperation(st);
      if r.Some? {
        return;
      }
      st := Pushed(st, Store(instruction.index), operator.pos);
    }

    method ParseDeclaration() returns (r: Result<ChunkState, Failure>)
      modifies this
      ensures var d := Declaration(tokens, path, old(next)); r == Outcome(d) && next == d.next
    {
      var st, failure := ParseAssignmentOperation(Empty(path));
      if failure.Some? {
        return Err(failure.value);
      }
      r := Ok(st);
    }

    /** The `Iterator` implementation's `next`. */
    method Next() returns (r: Option<Result<ChunkState, Failure>>)
      modifies this
      ensures NextChunk(tokens, path, old(next)).None? ==> r.None? && next == old(next)
      ensures NextChunk(tokens, path, old(next)).Some? ==>
        r == Some(Outcome(NextChunk(tokens, path, old(next)).value)) && next == NextChunk(tokens, path, old(next)).value.next
    {
      if KindAt(tokens, next) == None || KindAt(tokens, next) == Some(Sl2Token.EndOfFile) {
        return None;
      }
      var chunk := ParseDeclaration();
      r := Some(chunk);
    }

    /** `parse`: collect the iterator. */
    method ParseAll() returns (r: seq<Result<ChunkState, Failure>>)
      modifies this
      ensures r == Chunks(tokens, path, old(next))
    {
      r := [];
      while true
        invariant r + Chunks(tokens, path, next) == Chunks(tokens, path, old(next))
        decreases Remaining(tokens, next)
      {
        ghost var before := next;
        var item := Next();
        if item.None? {
          return;
        }
        ghost var rest := Chunks(tokens, path, next);
        assert Chunks(tokens, path, before) == [item.value] + if item.value == Err(Panic) then [] else rest;
        r := r + [item.value];
        if item.value == Err(Panic) {
          return;
        }
      }
    }
  }
}
