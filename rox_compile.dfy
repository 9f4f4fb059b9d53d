/**
 * rox's single-pass compiler as functions of its state: the scanner's cursor,
 * the previous and current tokens, the chunk being written, the error flags
 * and the error reports written so far. Each function is one method of the
 * compiler, and maps the state before the call to the state after it.
 *
 * `add_constant` panics when a chunk's constant pool outgrows a byte; the
 * state then records that the compiler halted, and nothing changes after.
 */
module RoxCompile {
  import opened Wrappers
  import opened Bytes
  import opened RoxScan
  import opened RoxScanProps
  import opened RoxChunk

  const PREC_NONE: nat := 0
  const PREC_ASSIGNMENT: nat := 1
  const PREC_OR: nat := 2
  const PREC_AND: nat := 3
  const PREC_EQUALITY: nat := 4
  const PREC_COMPARISON: nat := 5
  const PREC_TERM: nat := 6
  const PREC_FACTOR: nat := 7
  const PREC_UNARY: nat := 8
  const PREC_CALL: nat := 9
  const PREC_PRIMARY: nat := 10

  /**
   * Which rule table the compiler runs with: the one as written, where `!=`
   * has no precedence, or the corrected one, where `!=` binds like `==`.
   */
  datatype Table = AsWritten | Corrected

  /** The prefix parse functions. */
  datatype PrefixFn = Grouping | Unary | Variable | StringLiteral | NumberLiteral | Literal

  /** A parse rule; `binary` is the only infix function, so `infix` says whether it is there. */
  datatype Rule = Rule(prefix: Option<PrefixFn>, infix: bool, precedence: nat)

  /** `ParseRule::for_token_type`. */
  function RuleFor(tab: Table, ty: TokenType): (r: Rule)
    ensures r.precedence >= PREC_ASSIGNMENT ==> r.infix
    ensures ty == Eof ==> r.prefix.None? && r.precedence == PREC_NONE
  {
    match ty
    case LeftParen => Rule(Some(Grouping), false, PREC_NONE)
    case Minus => Rule(Some(Unary), true, PREC_TERM)
    case Plus => Rule(None, true, PREC_TERM)
    case Slash => Rule(None, true, PREC_FACTOR)
    case Star => Rule(None, true, PREC_FACTOR)
    case Bang => Rule(Some(Unary), false, PREC_NONE)
    case BangEqual => Rule(None, true, if tab == AsWritten then PREC_NONE else PREC_EQUALITY)
    case EqualEqual => Rule(None, true, PREC_EQUALITY)
    case Greater => Rule(None, true, PREC_COMPARISON)
    case GreaterEqual => Rule(None, true, PREC_COMPARISON)
    case Less => Rule(None, true, PREC_COMPARISON)
    case LessEqual => Rule(None, true, PREC_COMPARISON)
    case Identifier => Rule(Some(Variable), false, PREC_NONE)
    case String => Rule(Some(StringLiteral), false, PREC_NONE)
    case Number => Rule(Some(NumberLiteral), false, PREC_NONE)
    case False => Rule(Some(Literal), false, PREC_NONE)
    case Nil => Rule(Some(Literal), false, PREC_NONE)
    case True => Rule(Some(Literal), false, PREC_NONE)
    case _ => Rule(None, false, PREC_NONE)
  }

  /** What an error report names after its line: the end, nothing (for a scanner error), or the token's text. */
  datatype Where = AtEnd | AtNothing | AtText(text: seq<u8>)

  /** One `[line N] Error ...: message` report on the error stream. */
  datatype Report = Report(line: nat, where: Where, message: seq<u8>)

  datatype Compiling = Compiling(
    cursor: Cursor,
    previous: Option<Token>,
    current: Option<Token>,
    chunk: ChunkData,
    hadError: bool,
    panicMode: bool,
    reports: seq<Report>,
    halted: bool)

  /**
   * What every state the compiler reaches satisfies: its tokens are well
   * formed, its chunk has a line per byte, `had_error` says whether anything
   * was reported, panic mode is only entered by an error, and the compiler
   * halts only once tokens have been read.
   */
  predicate Inv(s: Compiling) {
    (s.previous.Some? ==> WellFormed(s.previous.value))
    && (s.current.Some? ==> WellFormed(s.current.value))
    && Valid(s.chunk)
    && (s.hadError <==> s.reports != [])
    && (s.panicMode ==> s.hadError)
    && (s.halted ==> s.previous.Some? && s.current.Some?)
  }

  /** The first token has been read. */
  predicate Started(s: Compiling) {
    Inv(s) && s.current.Some?
  }

  /** A previous token is there too. */
  predicate Ready(s: Compiling) {
    Started(s) && s.previous.Some?
  }

  /**
   * The work left: the bytes still to read, and the current token unless it
   * is Eof; nothing once the compiler halted.
   */
  function Left(src: seq<u8>, s: Compiling): nat {
    if s.halted then 0
    else 1 + Remaining(src, s.cursor) + (if s.current.Some? && s.current.value.ty != Eof then 1 else 0)
  }

  /**
   * What every step keeps: it does nothing once halted, it only appends to
   * the reports, the code and the constants, and it enters panic mode only
   * with a new report.
   */
  predicate Keeps(s: Compiling, r: Compiling) {
    (s.halted ==> r == s)
    && s.reports <= r.reports && s.chunk.code <= r.chunk.code && s.chunk.constants <= r.chunk.constants
    && (r.panicMode ==> s.panicMode || |s.reports| < |r.reports|)
  }

  lemma KeepsTrans(a: Compiling, b: Compiling, c: Compiling)
    requires Keeps(a, b) && Keeps(b, c)
    ensures Keeps(a, c)
  {
  }

  /** Nothing shrinks. */
  lemma KeepsGrows(a: Compiling, b: Compiling)
    requires Keeps(a, b)
    ensures |a.chunk.code| <= |b.chunk.code| && |a.chunk.constants| <= |b.chunk.constants| && |a.reports| <= |b.reports|
  {
  }

  /** A constant in the pool stays what it was. */
  lemma KeepsConstant(a: Compiling, b: Compiling, i: nat)
    requires Keeps(a, b) && i < |a.chunk.constants|
    ensures i < |b.chunk.constants| && b.chunk.constants[i] == a.chunk.constants[i]
  {
    assert a.chunk.constants == b.chunk.constants[..|a.chunk.constants|];
  }

  /**
   * Between `before` and `after` the constant v was added to the pool, and
   * the code ends in the global instruction `op` whose operand is v's index.
   */
  predicate GlobalCode(before: ChunkData, after: ChunkData, op: u8, v: Value) {
    |after.code| >= |before.code| + 2 && |before.constants| < |after.constants|
    && after.code[|after.code| - 2] == op && after.code[|after.code| - 1] as int == |before.constants|
    && after.constants[|before.constants|] == v
  }

  /**
   * The global instruction written after the name's constant was added in
   * `named`: the constant is still there in `r`.
   */
  lemma GlobalCodeOf(before: ChunkData, named: Compiling, r: Compiling, op: u8, arg: u8, v: Value)
    requires Keeps(named, r)
    requires !named.halted ==> named.chunk.code == before.code && named.chunk.constants == before.constants + [v]
    requires !named.halted ==> arg as int == |before.constants|
    requires !r.halted ==> |r.chunk.code| >= |named.chunk.code| + 2
    requires !r.halted ==> r.chunk.code[|r.chunk.code| - 2] == op && r.chunk.code[|r.chunk.code| - 1] == arg
    ensures !r.halted ==> GlobalCode(before, r.chunk, op, v)
  {
    if !r.halted {
      assert !named.halted;
      KeepsConstant(named, r, |before.constants|);
    }
  }

  /** In panic mode nothing is reported and panic mode stays on. */
  predicate Quiet(s: Compiling, r: Compiling) {
    s.panicMode ==> r.panicMode && r.reports == s.reports
  }

  // Errors

  function WhereOf(t: Token): Where
    requires WellFormed(t)
  {
    if t.ty == Eof then AtEnd else if t.ty == Error then AtNothing else AtText(Text(t))
  }

  /**
   * `error_at`: outside panic mode the report is written and both flags are
   * set; in panic mode nothing happens.
   */
  function ErrorAt(s: Compiling, t: Token, message: seq<u8>): (r: Compiling)
    requires Inv(s) && WellFormed(t)
    ensures Inv(r) && Keeps(s, r) && (!s.halted ==> r.hadError) && r.cursor == s.cursor && r.chunk == s.chunk
    ensures r.previous == s.previous && r.current == s.current && r.halted == s.halted
    ensures !s.halted && !s.panicMode ==> r.panicMode && r.reports == s.reports + [Report(t.line, WhereOf(t), message)]
    ensures s.halted || s.panicMode ==> r == s
  {
    if s.halted || s.panicMode then s
    else s.(panicMode := true, hadError := true, reports := s.reports + [Report(t.line, WhereOf(t), message)])
  }

  // Reading tokens

  /** The loop of `advance`: scan, and report and skip every Error token. */
  function ScanPast(src: seq<u8>, s: Compiling): (r: Compiling)
    requires Inv(s) && !s.halted
    ensures Inv(r) && r.current.Some? && r.current.value.ty != Error
    ensures r.previous == s.previous && r.chunk == s.chunk && r.halted == s.halted
    ensures Keeps(s, r) && Quiet(s, r)
    ensures Remaining(src, r.cursor) + (if r.current.value.ty != Eof then 1 else 0) <= Remaining(src, s.cursor)
    decreases Remaining(src, s.cursor)
  {
    var (t, c) := Scan(src, s.cursor);
    ScanWellFormed(src, s.cursor);
    ScanProgress(src, s.cursor);
    var scanned := s.(cursor := c, current := Some(t));
    if t.ty != Error then scanned
    else ScanPast(src, ErrorAt(scanned, t, Text(t)))
  }

  /** `advance`: the current token becomes the previous one, and the next non-Error token the current one. */
  function Advance(src: seq<u8>, s: Compiling): (r: Compiling)
    requires Inv(s)
    ensures Inv(r) && Keeps(s, r) && Left(src, r) <= Left(src, s) && Quiet(s, r) && r.chunk == s.chunk
    ensures r.halted == s.halted
    ensures !s.halted ==> r.previous == s.current && r.current.Some? && r.current.value.ty != Error
    ensures s.current.Some? ==> Ready(r)
    ensures !s.halted && s.current.Some? && s.current.value.ty != Eof ==> Left(src, r) < Left(src, s)
  {
    if s.halted then s else ScanPast(src, s.(previous := s.current))
  }

  /** `check`. */
  function Check(s: Compiling, ty: TokenType): bool
    requires s.current.Some?
  {
    s.current.value.ty == ty
  }

  /** `expect` (clox's `match`): advance past a token of type `ty` if it is the current one. */
  function Expect(src: seq<u8>, s: Compiling, ty: TokenType): (r: (bool, Compiling))
    requires Started(s)
    ensures Ready(r.1) || r.1 == s
    ensures Inv(r.1) && r.1.current.Some? && Keeps(s, r.1) && Left(src, r.1) <= Left(src, s) && Quiet(s, r.1) && r.1.chunk == s.chunk
    ensures r.0 == Check(s, ty) && (!r.0 ==> r.1 == s) && (r.0 ==> r.1 == Advance(src, s))
    ensures r.0 && !s.halted ==> r.1.previous == s.current
    ensures r.0 && !s.halted && ty != Eof ==> Left(src, r.1) < Left(src, s)
  {
    if Check(s, ty) then (true, Advance(src, s)) else (false, s)
  }

  /** `consume`: advance past the expected token, or report `message` at the current one. */
  function Consume(src: seq<u8>, s: Compiling, ty: TokenType, message: seq<u8>): (r: Compiling)
    requires Ready(s)
    ensures Ready(r) && Keeps(s, r) && Left(src, r) <= Left(src, s) && Quiet(s, r) && r.chunk == s.chunk
    ensures Check(s, ty) ==> r == Advance(src, s)
    ensures !Check(s, ty) ==> r == ErrorAt(s, s.current.value, message)
  {
    if Check(s, ty) then Advance(src, s) else ErrorAt(s, s.current.value, message)
  }

  // Writing code

  /** `emit_byte`: the byte goes into the chunk tagged with the previous token's line. */
  function EmitByte(s: Compiling, b: u8): (r: Compiling)
    requires Ready(s)
    ensures Ready(r) && Keeps(s, r) && r.halted == s.halted && r.reports == s.reports && r.panicMode == s.panicMode
    ensures r.cursor == s.cursor && r.previous == s.previous && r.current == s.current
    ensures !s.halted ==> r.chunk == Written(s.chunk, b, s.previous.value.line)
    ensures s.halted ==> r == s
  {
    if s.halted then s else s.(chunk := Written(s.chunk, b, s.previous.value.line))
  }

  function EmitBytes(s: Compiling, b1: u8, b2: u8): (r: Compiling)
    requires Ready(s)
    ensures Ready(r) && Keeps(s, r) && r.halted == s.halted && r.reports == s.reports && r.panicMode == s.panicMode
    ensures r.cursor == s.cursor && r.previous == s.previous && r.current == s.current
    ensures r.chunk.constants == s.chunk.constants
    ensures !s.halted ==> r.chunk.code == s.chunk.code + [b1, b2]
    ensures s.halted ==> r == s
  {
    EmitByte(EmitByte(s, b1), b2)
  }

  /**
   * `make_constant`: the value is appended to the pool and its index
   * returned; past 256 constants the compiler halts.
   */
  function AddConstant(s: Compiling, v: Value): (r: (Compiling, u8))
    requires Ready(s)
    ensures Ready(r.0) && Keeps(s, r.0) && r.0.reports == s.reports && r.0.panicMode == s.panicMode && r.0.hadError == s.hadError
    ensures r.0.cursor == s.cursor && r.0.previous == s.previous && r.0.current == s.current
    ensures r.0.chunk.code == s.chunk.code && r.0.chunk.lines == s.chunk.lines
    ensures !s.halted ==> r.0.chunk.constants == s.chunk.constants + [v]
    ensures !s.halted ==> (r.0.halted <==> |s.chunk.constants| >= 256)
    ensures !s.halted && !r.0.halted ==> r.1 as int == |s.chunk.constants| && r.0.chunk.constants[r.1] == v
    ensures s.halted ==> r.0 == s
  {
    if s.halted then (s, 0)
    else
      var chunk := s.chunk.(constants := s.chunk.constants + [v]);
      match IndexOfLast(|chunk.constants|)
      case None => (s.(chunk := chunk, halted := true), 0)
      case Some(index) => (s.(chunk := chunk), index)
  }

  /** `emit_constant`. */
  function EmitConstant(s: Compiling, v: Value): (r: Compiling)
    requires Ready(s)
    ensures Ready(r) && Keeps(s, r) && r.reports == s.reports && r.panicMode == s.panicMode
    ensures r.cursor == s.cursor && r.previous == s.previous && r.current == s.current
    ensures !s.halted ==> r.chunk.constants == s.chunk.constants + [v]
    ensures !r.halted ==> |s.chunk.constants| < 256 && r.chunk.code == s.chunk.code + [OP_CONSTANT, |s.chunk.constants| as u8]
    ensures s.halted ==> r == s
  {
    hide EmitBytes, AddConstant;
    var (added, index) := AddConstant(s, v);
    EmitBytes(added, OP_CONSTANT, index)
  }

  /** `identifier_constant`: the name's text as a string constant. */
  function IdentifierConstant(s: Compiling, name: Token): (r: (Compiling, u8))
    requires Ready(s) && WellFormed(name) && name.ty != Eof
    ensures Ready(r.0) && Keeps(s, r.0) && r.0.reports == s.reports && r.0.panicMode == s.panicMode && r.0.hadError == s.hadError
    ensures r.0.cursor == s.cursor && r.0.previous == s.previous && r.0.current == s.current
    ensures r.0.chunk.code == s.chunk.code && r.0.chunk.lines == s.chunk.lines
    ensures !s.halted ==> r.0.chunk.constants == s.chunk.constants + [Str(Text(name))]
    ensures !s.halted && !r.0.halted ==> r.1 as int == |s.chunk.constants| && r.0.chunk.constants[r.1] == Str(Text(name))
    ensures s.halted ==> r.0 == s
  {
    hide AddConstant;
    AddConstant(s, Str(Text(name)))
  }

  // Expressions

  /** The opcodes `binary` emits after the right operand of `op`. */
  function BinaryCode(op: TokenType): (r: seq<u8>)
    ensures |r| <= 2
  {
    match op
    case BangEqual => [OP_EQUAL, OP_NOT]
    case EqualEqual => [OP_EQUAL]
    case GreaterEqual => [OP_LESS, OP_NOT]
    case Greater => [OP_GREATER]
    case LessEqual => [OP_GREATER, OP_NOT]
    case Less => [OP_LESS]
    case Plus => [OP_ADD]
    case Minus => [OP_SUBTRACT]
    case Star => [OP_MULTIPLY]
    case Slash => [OP_DIVIDE]
    case _ => []
  }

  function EmitAll(s: Compiling, code: seq<u8>): (r: Compiling)
    requires Ready(s)
    ensures Ready(r) && Keeps(s, r) && r.halted == s.halted && r.reports == s.reports && r.panicMode == s.panicMode
    ensures r.cursor == s.cursor && r.previous == s.previous && r.current == s.current
    ensures r.chunk.constants == s.chunk.constants
    ensures !s.halted ==> r.chunk.code == s.chunk.code + code
    decreases |code|
  {
    if code == [] then s else EmitAll(EmitByte(s, code[0]), code[1..])
  }

  /**
   * `parse_precedence`: a prefix expression, then every infix operator that
   * binds at least as tightly as `prec`. Unless an error was reported, the
   * token it stops at binds less tightly than `prec`, and is no `=` where an
   * assignment could have stood.
   */
  function ParsePrecedence(src: seq<u8>, tab: Table, s: Compiling, prec: nat): (r: Compiling)
    requires Started(s) && prec >= PREC_ASSIGNMENT
    ensures Ready(r) && Keeps(s, r) && Left(src, r) <= Left(src, s) && Quiet(s, r)
    ensures !s.halted && s.current.value.ty != Eof ==> Left(src, r) < Left(src, s)
    ensures !r.halted && !r.hadError ==> RuleFor(tab, r.current.value.ty).precedence < prec
    ensures !r.halted && !r.hadError && prec <= PREC_ASSIGNMENT ==> r.current.value.ty != Equal
    decreases Left(src, s), 0
  {
    hide Advance, ErrorAt, Operand, Keeps;
    if s.halted then s
    else
      var advanced := Advance(src, s);
      if RuleFor(tab, advanced.previous.value.ty).prefix.None? then
        var r := ErrorAt(advanced, advanced.previous.value, Ascii("expected expression"));
        KeepsTrans(s, advanced, r);
        r
      else
        var r := Operand(src, tab, advanced, prec);
        KeepsTrans(s, advanced, r);
        r
  }

  /**
   * The rest of `parse_precedence` once the first token has a prefix rule:
   * the prefix expression, the infix operators, and the check that no `=`
   * follows where an assignment could have stood.
   */
  function Operand(src: seq<u8>, tab: Table, s: Compiling, prec: nat): (r: Compiling)
    requires Ready(s) && prec >= PREC_ASSIGNMENT && RuleFor(tab, s.previous.value.ty).prefix.Some?
    ensures Ready(r) && Keeps(s, r) && Left(src, r) <= Left(src, s) && Quiet(s, r)
    ensures !r.halted && !r.hadError ==> RuleFor(tab, r.current.value.ty).precedence < prec
    ensures !r.halted && !r.hadError && prec <= PREC_ASSIGNMENT ==> r.current.value.ty != Equal
    decreases Left(src, s), 4
  {
    hide Prefix, InfixLoop, AssignmentTarget, Keeps;
    var canAssign := prec <= PREC_ASSIGNMENT;
    var operand := Prefix(src, tab, s, canAssign);
    var infixes := InfixLoop(src, tab, operand, prec);
    var r := AssignmentTarget(src, infixes, canAssign);
    KeepsTrans(s, operand, infixes);
    KeepsTrans(s, infixes, r);
    r
  }

  /** The end of `parse_precedence`: an `=` left where an assignment could have stood is an error. */
  function AssignmentTarget(src: seq<u8>, s: Compiling, canAssign: bool): (r: Compiling)
    requires Ready(s)
    ensures Ready(r) && Keeps(s, r) && Left(src, r) <= Left(src, s) && Quiet(s, r)
    ensures !r.halted && !r.hadError ==> r == s && !(canAssign && s.current.value.ty == Equal)
  {
    hide Advance, ErrorAt, Keeps;
    if canAssign && Check(s, Equal) then
      var equal := Advance(src, s);
      var r := ErrorAt(equal, equal.previous.value, Ascii("invalid assignment target"));
      KeepsTrans(s, equal, r);
      r
    else s
  }

  /** `expression`. */
  function Expression(src: seq<u8>, tab: Table, s: Compiling): (r: Compiling)
    requires Started(s)
    ensures Ready(r) && Keeps(s, r) && Left(src, r) <= Left(src, s) && Quiet(s, r)
    ensures !s.halted && s.current.value.ty != Eof ==> Left(src, r) < Left(src, s)
    ensures !r.halted && !r.hadError ==> RuleFor(tab, r.current.value.ty).precedence == PREC_NONE && r.current.value.ty != Equal
    decreases Left(src, s), 1
  {
    ParsePrecedence(src, tab, s, PREC_ASSIGNMENT)
  }

  /** The prefix function of the previous token's rule. */
  function Prefix(src: seq<u8>, tab: Table, s: Compiling, canAssign: bool): (r: Compiling)
    requires Ready(s) && RuleFor(tab, s.previous.value.ty).prefix.Some?
    ensures Ready(r) && Keeps(s, r) && Left(src, r) <= Left(src, s) && Quiet(s, r)
    decreases Left(src, s), 3
  {
    hide Consume, Expression, UnaryOp, NamedVariable, EmitConstant, EmitByte, Keeps;
    var token := s.previous.value;
    match RuleFor(tab, token.ty).prefix.value
    case Grouping =>
      var inner := Expression(src, tab, s);
      var r := Consume(src, inner, RightParen, Ascii("expected ')' after expression."));
      KeepsTrans(s, inner, r);
      r
    case Unary => UnaryOp(src, tab, s)
    case Variable => NamedVariable(src, tab, s, token, canAssign)
    case StringLiteral =>
      var text := Text(token);
      EmitConstant(s, Str(text[1..|text| - 1]))
    case NumberLiteral => EmitConstant(s, Value.Number(Text(token)))
    case Literal => EmitByte(s, if token.ty == False then OP_FALSE else if token.ty == Nil then OP_NIL else OP_TRUE)
  }

  /** `unary`: the operand at unary precedence, then the operator. */
  function UnaryOp(src: seq<u8>, tab: Table, s: Compiling): (r: Compiling)
    requires Ready(s) && s.previous.value.ty in {Minus, Bang}
    ensures Ready(r) && Keeps(s, r) && Left(src, r) <= Left(src, s) && Quiet(s, r)
    decreases Left(src, s), 2
  {
    hide EmitByte, Keeps;
    var operand := ParsePrecedence(src, tab, s, PREC_UNARY);
    var r := EmitByte(operand, if s.previous.value.ty == Minus then OP_NEGATE else OP_NOT);
    KeepsTrans(s, operand, r);
    r
  }

  /**
   * `named_variable`: a read of the global, or, where an assignment may
   * stand and `=` follows, the value and a write of the global.
   */
  function NamedVariable(src: seq<u8>, tab: Table, s: Compiling, name: Token, canAssign: bool): (r: Compiling)
    requires Ready(s) && WellFormed(name) && name.ty != Eof
    ensures Ready(r) && Keeps(s, r) && Left(src, r) <= Left(src, s) && Quiet(s, r)
    decreases Left(src, s), 2
  {
    hide IdentifierConstant, Assignment, EmitBytes, Keeps;
    var (named, arg) := IdentifierConstant(s, name);
    var r := if canAssign && Check(named, Equal) then Assignment(src, tab, named, arg) else EmitBytes(named, OP_GET_GLOBAL, arg);
    KeepsTrans(s, named, r);
    r
  }

  /** The assignment branch of `named_variable`: past the `=`, the value, and the write of the global. */
  function Assignment(src: seq<u8>, tab: Table, s: Compiling, arg: u8): (r: Compiling)
    requires Ready(s) && Check(s, Equal)
    ensures Ready(r) && Keeps(s, r) && Left(src, r) <= Left(src, s) && Quiet(s, r)
    decreases Left(src, s), 1
  {
    hide Expression, Advance, EmitBytes, Inv;
    if s.halted then s
    else EmitBytes(Expression(src, tab, Advance(src, s)), OP_SET_GLOBAL, arg)
  }

  /**
   * `binary`: the right operand at one level above the operator's, so that
   * an operator of the same level is left for the enclosing loop, then the
   * operator's code.
   */
  function Binary(src: seq<u8>, tab: Table, s: Compiling): (r: Compiling)
    requires Ready(s) && RuleFor(tab, s.previous.value.ty).infix
    ensures Ready(r) && Keeps(s, r) && Left(src, r) <= Left(src, s) && Quiet(s, r)
    decreases Left(src, s), 2
  {
    hide EmitAll, Keeps;
    var op := s.previous.value.ty;
    var right := ParsePrecedence(src, tab, s, RuleFor(tab, op).precedence + 1);
    var r := EmitAll(right, BinaryCode(op));
    KeepsTrans(s, right, r);
    r
  }

  /** The loop of `parse_precedence`: every operator binding at least as tightly as `prec`. */
  function InfixLoop(src: seq<u8>, tab: Table, s: Compiling, prec: nat): (r: Compiling)
    requires Ready(s) && prec >= PREC_ASSIGNMENT
    ensures Ready(r) && Keeps(s, r) && Left(src, r) <= Left(src, s) && Quiet(s, r)
    ensures !r.halted ==> RuleFor(tab, r.current.value.ty).precedence < prec
    decreases Left(src, s), 3
  {
    hide Advance, Binary, Keeps;
    if s.halted || prec > RuleFor(tab, s.current.value.ty).precedence then s
    else
      var operator := Advance(src, s);
      var right := Binary(src, tab, operator);
      var r := InfixLoop(src, tab, right, prec);
      KeepsTrans(s, operator, right);
      KeepsTrans(s, right, r);
      r
  }

  // Statements and declarations

  /** `expression_statement`: the value is computed and popped. */
  function ExpressionStatement(src: seq<u8>, tab: Table, s: Compiling): (r: Compiling)
    requires Started(s)
    ensures Ready(r) && Keeps(s, r) && Left(src, r) <= Left(src, s) && Quiet(s, r)
    ensures !s.halted && s.current.value.ty != Eof ==> Left(src, r) < Left(src, s)
  {
    hide Expression, Consume, EmitByte, Keeps;
    var value := Expression(src, tab, s);
    var ended := Consume(src, value, Semicolon, Ascii("expect ';' after value"));
    var r := EmitByte(ended, OP_POP);
    KeepsTrans(s, value, ended);
    KeepsTrans(s, ended, r);
    r
  }

  /** `print_statement`: the value is computed and printed. */
  function PrintStatement(src: seq<u8>, tab: Table, s: Compiling): (r: Compiling)
    requires Started(s)
    ensures Ready(r) && Keeps(s, r) && Left(src, r) <= Left(src, s) && Quiet(s, r)
    ensures !s.halted && s.current.value.ty != Eof ==> Left(src, r) < Left(src, s)
  {
    hide Expression, Consume, EmitByte, Keeps;
    var value := Expression(src, tab, s);
    var ended := Consume(src, value, Semicolon, Ascii("expect ';' after value"));
    var r := EmitByte(ended, OP_PRINT);
    KeepsTrans(s, value, ended);
    KeepsTrans(s, ended, r);
    r
  }

  /** `statement`. */
  function Statement(src: seq<u8>, tab: Table, s: Compiling): (r: Compiling)
    requires Started(s)
    ensures Ready(r) && Keeps(s, r) && Left(src, r) <= Left(src, s) && Quiet(s, r)
    ensures !s.halted && s.current.value.ty != Eof ==> Left(src, r) < Left(src, s)
  {
    hide Expect, PrintStatement, ExpressionStatement, Keeps;
    var (isPrint, next) := Expect(src, s, Print);
    var r := if isPrint then PrintStatement(src, tab, next) else ExpressionStatement(src, tab, next);
    KeepsTrans(s, next, r);
    r
  }

  /** `parse_variable`: the name, and the index of its constant. */
  function ParseVariable(src: seq<u8>, s: Compiling, message: seq<u8>): (r: (Compiling, u8))
    requires Ready(s) && s.previous.value.ty != Eof
    ensures Ready(r.0) && Keeps(s, r.0) && Left(src, r.0) <= Left(src, s) && Quiet(s, r.0)
    ensures r.0.chunk.code == s.chunk.code
    ensures var name := if Check(s, Identifier) then s.current.value else s.previous.value;
      !r.0.halted ==> r.1 as int == |s.chunk.constants| && r.0.chunk.constants == s.chunk.constants + [Str(Text(name))]
  {
    hide Consume, IdentifierConstant, Keeps;
    var named := Consume(src, s, Identifier, message);
    var (added, global) := IdentifierConstant(named, named.previous.value);
    KeepsTrans(s, named, added);
    (added, global)
  }

  /** The initializer of a variable declaration, or `nil`, and the `;` after it. */
  function Initializer(src: seq<u8>, tab: Table, s: Compiling): (r: Compiling)
    requires Ready(s)
    ensures Ready(r) && Keeps(s, r) && Left(src, r) <= Left(src, s) && Quiet(s, r)
  {
    hide Consume, Expect, Expression, EmitByte, Keeps;
    var (initialized, next) := Expect(src, s, Equal);
    var value := if initialized then Expression(src, tab, next) else EmitByte(next, OP_NIL);
    var r := Consume(src, value, Semicolon, Ascii("expect ';' after variable declaration"));
    KeepsTrans(s, next, value);
    KeepsTrans(s, value, r);
    r
  }

  /**
   * `var_declaration`: the name's constant, the initializer or `nil`, the
   * `;`, and the definition of the global.
   */
  function VarDeclaration(src: seq<u8>, tab: Table, s: Compiling): (r: Compiling)
    requires Ready(s) && s.previous.value.ty != Eof
    ensures Ready(r) && Keeps(s, r) && Left(src, r) <= Left(src, s) && Quiet(s, r)
  {
    var (named, global) := ParseVariable(src, s, Ascii("expected variable name"));
    EmitBytes(Initializer(src, tab, named), OP_DEFINE_GLOBAL, global)
  }

  /** The tokens `synchronize` stops before: the starts of statements. */
  predicate StartsStatement(ty: TokenType) {
    ty in {Class, Fun, Var, For, If, While, Print, Return}
  }

  /** The loop of `synchronize`: skip tokens up to a statement boundary. */
  function SyncLoop(src: seq<u8>, s: Compiling): (r: Compiling)
    requires Ready(s)
    ensures Ready(r) && Keeps(s, r) && Left(src, r) <= Left(src, s) && r.chunk == s.chunk
    ensures r.halted || r.current.value.ty == Eof || r.previous.value.ty == Semicolon || StartsStatement(r.current.value.ty)
    decreases Left(src, s)
  {
    hide Advance, Keeps;
    if s.halted || s.current.value.ty == Eof || s.previous.value.ty == Semicolon || StartsStatement(s.current.value.ty) then s
    else
      var skipped := Advance(src, s);
      var r := SyncLoop(src, skipped);
      KeepsTrans(s, skipped, r);
      r
  }

  /** `synchronize`: leave panic mode and skip to a statement boundary. */
  function Synchronize(src: seq<u8>, s: Compiling): (r: Compiling)
    requires Ready(s)
    ensures Ready(r) && Keeps(s, r) && Left(src, r) <= Left(src, s) && r.chunk == s.chunk
    ensures r.halted || r.current.value.ty == Eof || r.previous.value.ty == Semicolon || StartsStatement(r.current.value.ty)
    ensures !s.halted && r.panicMode ==> |s.reports| < |r.reports|
  {
    hide SyncLoop, Keeps;
    if s.halted then s
    else
      var calm := s.(panicMode := false);
      var r := SyncLoop(src, calm);
      assert Keeps(s, calm);
      KeepsTrans(s, calm, r);
      r
  }

  /** `declaration`: a declaration or statement, then recovery if it failed. */
  function Declaration(src: seq<u8>, tab: Table, s: Compiling): (r: Compiling)
    requires Started(s)
    ensures Ready(r) && Keeps(s, r) && Left(src, r) <= Left(src, s)
    ensures !s.halted && s.current.value.ty != Eof ==> Left(src, r) < Left(src, s)
  {
    hide Expect, VarDeclaration, Statement, Synchronize, Keeps;
    if s.halted then s
    else
      var (isVar, next) := Expect(src, s, Var);
      var done := if isVar then VarDeclaration(src, tab, next) else Statement(src, tab, next);
      KeepsTrans(s, next, done);
      if done.panicMode then
        var r := Synchronize(src, done);
        KeepsTrans(s, done, r);
        r
      else done
  }

  /** The loop of `compile`: declarations until the Eof token has been consumed. */
  function Declarations(src: seq<u8>, tab: Table, s: Compiling): (r: Compiling)
    requires Started(s)
    ensures Ready(r) && Keeps(s, r) && Left(src, r) <= Left(src, s)
    ensures !r.halted ==> r.previous.value.ty == Eof
    decreases Left(src, s)
  {
    hide Expect, Declaration, Keeps;
    var (atEnd, next) := Expect(src, s, Eof);
    if atEnd || next.halted then next
    else
      var declared := Declaration(src, tab, next);
      var r := Declarations(src, tab, declared);
      KeepsTrans(s, declared, r);
      r
  }

  /** What `compile` leads to: its verdict, or None where it panicked, and the chunk and reports it left. */
  datatype Outcome = Outcome(result: Option<bool>, chunk: ChunkData, reports: seq<Report>)

  /** The state of `Compiler::new` once `compile` has installed the chunk. */
  function Initial(chunk: ChunkData): Compiling {
    Compiling(Cursor(0, 0, 1), None, None, chunk, false, false, [], false)
  }

  /** The state `compile` ends in: the first token read, all declarations, and `end`. */
  function Compiled(src: seq<u8>, tab: Table, chunk: ChunkData): (r: Compiling)
    requires Valid(chunk)
    ensures Ready(r) && chunk.code <= r.chunk.code
    ensures !r.halted ==> |r.chunk.code| > |chunk.code| && r.chunk.code[|r.chunk.code| - 1] == OP_RETURN
  {
    hide Advance, Declarations, EmitByte, Keeps;
    var first := Advance(src, Initial(chunk));
    var declared := Declarations(src, tab, first);
    var r := EmitByte(declared, OP_RETURN);
    KeepsTrans(Initial(chunk), first, declared);
    KeepsTrans(Initial(chunk), declared, r);
    r
  }

  /**
   * `compile`: true exactly when nothing was reported; the chunk always ends
   * in OP_RETURN.
   */
  function Compile(src: seq<u8>, tab: Table, chunk: ChunkData): (r: Outcome)
    requires Valid(chunk)
    ensures Valid(r.chunk) && chunk.code <= r.chunk.code
    ensures r.result.Some? ==> (r.result.value <==> r.reports == [])
    ensures r.result.Some? ==> |r.chunk.code| > |chunk.code| && r.chunk.code[|r.chunk.code| - 1] == OP_RETURN
  {
    var s := Compiled(src, tab, chunk);
    Outcome(if s.halted then None else Some(!s.hadError), s.chunk, s.reports)
  }
}
