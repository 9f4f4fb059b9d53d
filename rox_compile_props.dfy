/**
 * What rox's compiler promises about the code it writes: the shape of each
 * expression and statement, the global instructions of variables, and the
 * errors reported for a missing `;` and for an `=` that has nothing to assign.
 */
module RoxCompileProps {
  import opened Wrappers
  import opened Bytes
  import opened RoxScan
  import opened RoxScanProps
  import opened RoxChunk
  import opened RoxCompile

  /** `unary`: the operand's code, then OP_NEGATE for `-` or OP_NOT for `!`. */
  lemma UnaryCode(src: seq<u8>, tab: Table, s: Compiling)
    requires Ready(s) && s.previous.value.ty in {Minus, Bang}
    ensures var operand := ParsePrecedence(src, tab, s, PREC_UNARY);
      var r := UnaryOp(src, tab, s);
      !r.halted ==> r.chunk.code == operand.chunk.code + [if s.previous.value.ty == Minus then OP_NEGATE else OP_NOT]
  {
    hide ParsePrecedence, EmitByte, Keeps;
    var operand := ParsePrecedence(src, tab, s, PREC_UNARY);
    var r := EmitByte(operand, if s.previous.value.ty == Minus then OP_NEGATE else OP_NOT);
    assert UnaryOp(src, tab, s) == r;
  }

  /**
   * `binary`: the right operand's code, then the operator's. The right
   * operand is parsed one level above the operator, so it stops before an
   * operator of the same level, which the enclosing loop then applies to
   * the result: the operators of a level associate to the left.
   */
  lemma BinaryCodeAfterRight(src: seq<u8>, tab: Table, s: Compiling)
    requires Ready(s) && RuleFor(tab, s.previous.value.ty).infix
    ensures var op := s.previous.value.ty;
      var right := ParsePrecedence(src, tab, s, RuleFor(tab, op).precedence + 1);
      var r := Binary(src, tab, s);
      !r.halted ==> r.chunk.code == right.chunk.code + BinaryCode(op)
    ensures var r := Binary(src, tab, s);
      !r.halted && !r.hadError ==> RuleFor(tab, r.current.value.ty).precedence <= RuleFor(tab, s.previous.value.ty).precedence
  {
    hide ParsePrecedence, EmitAll, Keeps;
    var op := s.previous.value.ty;
    var right := ParsePrecedence(src, tab, s, RuleFor(tab, op).precedence + 1);
    assert Binary(src, tab, s) == EmitAll(right, BinaryCode(op));
  }

  /**
   * `named_variable`: the name becomes a new constant, and the code ends in
   * OP_SET_GLOBAL where an assignment may stand and `=` follows, in
   * OP_GET_GLOBAL otherwise, with the constant's index as operand.
   */
  lemma NamedVariableCode(src: seq<u8>, tab: Table, s: Compiling, name: Token, canAssign: bool)
    requires Ready(s) && WellFormed(name) && name.ty != Eof
    ensures var r := NamedVariable(src, tab, s, name, canAssign);
      !r.halted ==> GlobalCode(s.chunk, r.chunk, if canAssign && Check(s, Equal) then OP_SET_GLOBAL else OP_GET_GLOBAL, Str(Text(name)))
  {
    hide IdentifierConstant, Assignment, EmitBytes, Keeps, GlobalCode;
    var (named, arg) := IdentifierConstant(s, name);
    if canAssign && Check(named, Equal) {
      var r := Assignment(src, tab, named, arg);
      assert NamedVariable(src, tab, s, name, canAssign) == r;
      AssignmentGlobalCode(src, tab, s, named, arg, Str(Text(name)));
    } else {
      var r := EmitBytes(named, OP_GET_GLOBAL, arg);
      assert NamedVariable(src, tab, s, name, canAssign) == r;
      GlobalCodeOf(s.chunk, named, r, OP_GET_GLOBAL, arg, Str(Text(name)));
    }
  }

  lemma AssignmentGlobalCode(src: seq<u8>, tab: Table, s: Compiling, named: Compiling, arg: u8, v: Value)
    requires Ready(named) && Check(named, Equal)
    requires !named.halted ==> named.chunk.code == s.chunk.code && named.chunk.constants == s.chunk.constants + [v]
    requires !named.halted ==> arg as int == |s.chunk.constants|
    ensures var r := Assignment(src, tab, named, arg); !r.halted ==> GlobalCode(s.chunk, r.chunk, OP_SET_GLOBAL, v)
  {
    hide Assignment, GlobalCode, Keeps;
    AssignmentCode(src, tab, named, arg);
    GlobalCodeOf(s.chunk, named, Assignment(src, tab, named, arg), OP_SET_GLOBAL, arg, v);
  }

  /** `named_variable`'s assignment ends in OP_SET_GLOBAL and the name's index. */
  lemma AssignmentCode(src: seq<u8>, tab: Table, s: Compiling, arg: u8)
    requires Ready(s) && Check(s, Equal)
    ensures var r := Assignment(src, tab, s, arg);
      !r.halted ==> (|r.chunk.code| >= |s.chunk.code| + 2
      && r.chunk.code[|r.chunk.code| - 2] == OP_SET_GLOBAL && r.chunk.code[|r.chunk.code| - 1] == arg)
  {
    hide Expression, Advance, EmitBytes;
    if !s.halted {
      var value := Expression(src, tab, Advance(src, s));
      assert Assignment(src, tab, s, arg) == EmitBytes(value, OP_SET_GLOBAL, arg);
      KeepsTrans(s, Advance(src, s), value);
    }
  }

  /**
   * The end of `parse_precedence`: where no assignment may stand, the `=` is
   * left alone; where one may, it is consumed and "invalid assignment
   * target" is reported at it, unless the compiler was already in panic mode.
   */
  lemma InvalidAssignmentTarget(src: seq<u8>, s: Compiling, canAssign: bool)
    requires Ready(s)
    ensures !(canAssign && Check(s, Equal)) ==> AssignmentTarget(src, s, canAssign) == s
    ensures var r := AssignmentTarget(src, s, canAssign);
      canAssign && Check(s, Equal) && !s.halted ==> r.hadError && r.previous == s.current
    ensures var r := AssignmentTarget(src, s, canAssign);
      var equal := Advance(src, s);
      canAssign && Check(s, Equal) && !s.halted && !equal.panicMode ==>
        r.reports == equal.reports + [Report(s.current.value.line, WhereOf(s.current.value), Ascii("invalid assignment target"))]
  {
    hide Advance, ErrorAt, Keeps;
    if canAssign && Check(s, Equal) {
      var equal := Advance(src, s);
      assert AssignmentTarget(src, s, canAssign) == ErrorAt(equal, equal.previous.value, Ascii("invalid assignment target"));
    }
  }

  /** A variable's initializer: the expression after `=`, or OP_NIL where there is none. */
  lemma InitializerCode(src: seq<u8>, tab: Table, s: Compiling)
    requires Ready(s)
    ensures !Check(s, Equal) && !s.halted ==> Initializer(src, tab, s).chunk.code == s.chunk.code + [OP_NIL]
    ensures Check(s, Equal) ==> Initializer(src, tab, s).chunk == Expression(src, tab, Advance(src, s)).chunk
  {
    hide Consume, Expect, Expression, Advance, EmitByte, Keeps;
    var (initialized, next) := Expect(src, s, Equal);
    var value := if initialized then Expression(src, tab, next) else EmitByte(next, OP_NIL);
    assert Initializer(src, tab, s) == Consume(src, value, Semicolon, Ascii("expect ';' after variable declaration"));
  }

  /**
   * `var_declaration`: the code ends in OP_DEFINE_GLOBAL whose operand is
   * the index of the name's constant, added before the initializer's code.
   * (Where the name is missing, `parse_variable` takes the previous token.)
   */
  lemma VarDeclarationCode(src: seq<u8>, tab: Table, s: Compiling)
    requires Ready(s) && s.previous.value.ty != Eof
    ensures var name := if Check(s, Identifier) then s.current.value else s.previous.value;
      var r := VarDeclaration(src, tab, s);
      !r.halted ==> GlobalCode(s.chunk, r.chunk, OP_DEFINE_GLOBAL, Str(Text(name)))
  {
    hide ParseVariable, Initializer, EmitBytes, Keeps, GlobalCode;
    var name := if Check(s, Identifier) then s.current.value else s.previous.value;
    var (named, global) := ParseVariable(src, s, Ascii("expected variable name"));
    var ended := Initializer(src, tab, named);
    var r := EmitBytes(ended, OP_DEFINE_GLOBAL, global);
    assert VarDeclaration(src, tab, s) == r;
    KeepsTrans(named, ended, r);
    KeepsGrows(named, ended);
    GlobalCodeOf(s.chunk, named, r, OP_DEFINE_GLOBAL, global, Str(Text(name)));
  }

  /**
   * `print_statement`: the value's code, then OP_PRINT; a value not
   * followed by `;` is an error, reported at the token there.
   */
  lemma PrintStatementShape(src: seq<u8>, tab: Table, s: Compiling)
    requires Started(s)
    ensures var value := Expression(src, tab, s);
      var r := PrintStatement(src, tab, s);
      !r.halted ==> r.chunk.code == value.chunk.code + [OP_PRINT]
    ensures var value := Expression(src, tab, s);
      !value.halted && !Check(value, Semicolon) ==> PrintStatement(src, tab, s).hadError
    ensures var value := Expression(src, tab, s);
      !value.halted && !value.panicMode && !Check(value, Semicolon) ==>
        PrintStatement(src, tab, s).reports == value.reports + [Report(value.current.value.line, WhereOf(value.current.value), Ascii("expect ';' after value"))]
  {
    hide Expression, Consume, EmitByte, Keeps;
    var value := Expression(src, tab, s);
    var ended := Consume(src, value, Semicolon, Ascii("expect ';' after value"));
    assert PrintStatement(src, tab, s) == EmitByte(ended, OP_PRINT);
  }

  /**
   * `expression_statement`: the value's code, then OP_POP; a value not
   * followed by `;` is an error, reported at the token there.
   */
  lemma ExpressionStatementShape(src: seq<u8>, tab: Table, s: Compiling)
    requires Started(s)
    ensures var value := Expression(src, tab, s);
      var r := ExpressionStatement(src, tab, s);
      !r.halted ==> r.chunk.code == value.chunk.code + [OP_POP]
    ensures var value := Expression(src, tab, s);
      !value.halted && !Check(value, Semicolon) ==> ExpressionStatement(src, tab, s).hadError
    ensures var value := Expression(src, tab, s);
      !value.halted && !value.panicMode && !Check(value, Semicolon) ==>
        ExpressionStatement(src, tab, s).reports == value.reports + [Report(value.current.value.line, WhereOf(value.current.value), Ascii("expect ';' after value"))]
  {
    hide Expression, Consume, EmitByte, Keeps;
    var value := Expression(src, tab, s);
    var ended := Consume(src, value, Semicolon, Ascii("expect ';' after value"));
    assert ExpressionStatement(src, tab, s) == EmitByte(ended, OP_POP);
  }

  /** As written, `!=` has no precedence: the infix loop stops at it, whatever level it parses at. */
  lemma AsWrittenNotEqualStops(src: seq<u8>, s: Compiling, prec: nat)
    requires Ready(s) && prec >= PREC_ASSIGNMENT && s.current.value.ty == BangEqual
    ensures InfixLoop(src, AsWritten, s, prec) == s
  {
    hide Binary, Advance;
  }

  /**
   * With `!=` at the level of `==`, an expression that compiles without
   * error never stops at a `!=`: the operator is always consumed.
   */
  lemma CorrectedNotEqualConsumed(src: seq<u8>, s: Compiling)
    requires Started(s)
    ensures var r := Expression(src, Corrected, s);
      !r.halted && !r.hadError ==> r.current.value.ty != BangEqual
  {
    hide ParsePrecedence;
  }
}
