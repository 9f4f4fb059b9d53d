/**
 * The one-line program `a != b;` compiled with both rule tables, step by
 * step. As written, the `!=` row has no infix function, so the expression
 * statement stops after `a`, the missing `;` is reported at `!=`, and
 * `compile` answers false. With the corrected row the same program compiles
 * to `GET a; GET b; EQUAL; NOT; POP; RETURN` and `compile` answers true.
 */
module RoxNotEqual {
  import opened Wrappers
  import opened Bytes
  import opened RoxScan
  import opened RoxChunk
  import opened RoxCompile
  /** `a != b;`, all on line 1. */
  const Source: seq<u8> := [97, 32, 33, 61, 32, 98, 59]

  // Its tokens, and the Eof token the scanner returns at the end, twice.
  const NameA := Token(Identifier, 1, Source, 0, 1)
  const BangEq := Token(BangEqual, 1, Source, 2, 2)
  const NameB := Token(Identifier, 1, Source, 5, 1)
  const Semi := Token(Semicolon, 1, Source, 6, 1)
  const EndFirst := Token(Eof, 1, Source, 7, 1)
  const EndAgain := Token(Eof, 1, Source, 8, 1)

  lemma ScansA()
    ensures Scan(Source, Cursor(0, 0, 1)) == (NameA, Cursor(0, 1, 1))
  {
  }

  lemma ScansBangEqual()
    ensures Scan(Source, Cursor(0, 1, 1)) == (BangEq, Cursor(2, 4, 1))
  {
  }

  lemma ScansB()
    ensures Scan(Source, Cursor(2, 4, 1)) == (NameB, Cursor(5, 6, 1))
  {
  }

  lemma ScansSemicolon()
    ensures Scan(Source, Cursor(5, 6, 1)) == (Semi, Cursor(6, 7, 1))
  {
  }

  lemma ScansEnd()
    ensures Scan(Source, Cursor(6, 7, 1)) == (EndFirst, Cursor(7, 8, 1))
  {
  }

  lemma ScansEndAgain()
    ensures Scan(Source, Cursor(7, 8, 1)) == (EndAgain, Cursor(8, 9, 1))
  {
  }

  const Msg := Ascii("expect ';' after value")

  // The states of the as-written compilation: after the first token, at `!=`,
  // after `a`, after the report at `!=`, after POP, after recovering at the
  // end, and after the final Eof.
  const S1 := Compiling(Cursor(0, 1, 1), None, Some(NameA), Empty(), false, false, [], false)
  const S2 := Compiling(Cursor(2, 4, 1), Some(NameA), Some(BangEq), Empty(), false, false, [], false)
  const S3 := S2.(chunk := ChunkData([Str([97])], [16, 0], [1, 1]))
  const R4 := [Report(1, AtText([33, 61]), Msg)]
  const S4 := S3.(panicMode := true, hadError := true, reports := R4)
  const S5 := S4.(chunk := ChunkData([Str([97])], [16, 0, 15], [1, 1, 1]))
  const S6 := Compiling(Cursor(7, 8, 1), Some(Semi), Some(EndFirst), S5.chunk, true, false, R4, false)
  const S7 := Compiling(Cursor(8, 9, 1), Some(EndFirst), Some(EndAgain), S5.chunk, true, false, R4, false)

  lemma SecondToken()
    ensures Advance(Source, S1) == S2
  {
    ScansBangEqual();
  }

  lemma IdentifierA()
    ensures IdentifierConstant(S2, NameA) == (S2.(chunk := ChunkData([Str([97])], [], [])), 0)
  {
    assert Text(NameA) == [97];
    assert IndexOfLast(1) == Some(0);
    assert Empty().constants + [Str([97])] == [Str([97])];
  }

  lemma VariableA(tab: Table)
    ensures NamedVariable(Source, tab, S2, NameA, true) == S3
  {
    hide IdentifierConstant, Assignment, Keeps, Quiet, Left;
    IdentifierA();
    var named := S2.(chunk := ChunkData([Str([97])], [], []));
    assert EmitBytes(named, OP_GET_GLOBAL, 0) == S3;
  }

  lemma PrefixA(tab: Table)
    ensures Prefix(Source, tab, S2, true) == S3
  {
    hide NamedVariable, Consume, Expression, UnaryOp, EmitConstant, EmitByte, Keeps, Quiet, Left;
    VariableA(tab);
  }

  /** As written, `!=` binds at no level at all, so the loop of `parse_precedence` stops before it. */
  lemma AsWrittenStops()
    ensures InfixLoop(Source, AsWritten, S3, PREC_ASSIGNMENT) == S3
  {
    hide Advance, Binary, Keeps, Quiet, Left;
  }

  lemma TargetA()
    ensures AssignmentTarget(Source, S3, true) == S3
  {
    hide Advance, ErrorAt, Keeps, Quiet, Left;
  }

  lemma AsWrittenOperand()
    ensures Operand(Source, AsWritten, S2, PREC_ASSIGNMENT) == S3
  {
    hide Prefix, InfixLoop, AssignmentTarget, Keeps, Quiet, Left;
    PrefixA(AsWritten);
    AsWrittenStops();
    TargetA();
  }

  lemma AsWrittenExpression()
    ensures Expression(Source, AsWritten, S1) == S3
  {
    hide Advance, Operand, ErrorAt, Keeps, Quiet, Left;
    SecondToken();
    AsWrittenOperand();
  }

  lemma MissingSemicolon()
    ensures Consume(Source, S3, Semicolon, Msg) == S4
  {
    assert Text(BangEq) == [33, 61];
  }

  lemma AsWrittenPop()
    ensures EmitByte(S4, OP_POP) == S5
  {
    assert S4.chunk.code + [OP_POP] == S5.chunk.code;
    assert S4.chunk.lines + [1] == S5.chunk.lines;
  }

  lemma AsWrittenStatement()
    ensures ExpressionStatement(Source, AsWritten, S1) == S5
  {
    hide Expression, Consume, EmitByte, Keeps, Quiet, Left;
    AsWrittenExpression();
    MissingSemicolon();
    AsWrittenPop();
  }

  // The states `synchronize` passes through.
  const T1 := Compiling(Cursor(5, 6, 1), Some(BangEq), Some(NameB), S5.chunk, true, false, R4, false)
  const T2 := Compiling(Cursor(6, 7, 1), Some(NameB), Some(Semi), S5.chunk, true, false, R4, false)
  lemma PastB()
    ensures Advance(Source, S5.(panicMode := false)) == T1
  {
    ScansB();
  }

  lemma PastSemicolon()
    ensures Advance(Source, T1) == T2
  {
    ScansSemicolon();
  }

  lemma PastEnd()
    ensures Advance(Source, T2) == S6
  {
    ScansEnd();
  }

  lemma SkipsToEnd()
    ensures SyncLoop(Source, T2) == S6
  {
    hide Advance, Keeps, Left;
    PastEnd();
  }

  lemma SkipsSemicolon()
    ensures SyncLoop(Source, T1) == S6
  {
    hide Advance, Keeps, Left;
    PastSemicolon();
    SkipsToEnd();
  }

  lemma SkipsBangEqual()
    ensures SyncLoop(Source, S5.(panicMode := false)) == S6
  {
    hide Advance, Keeps, Left;
    PastB();
    SkipsSemicolon();
  }

  lemma Recovers()
    ensures Synchronize(Source, S5) == S6
  {
    hide SyncLoop, Keeps, Left;
    SkipsBangEqual();
  }

  lemma AsWrittenStatementChosen()
    ensures Statement(Source, AsWritten, S1) == S5
  {
    hide ExpressionStatement, PrintStatement, Keeps, Quiet, Left;
    AsWrittenStatement();
  }

  lemma AsWrittenDeclaration()
    ensures Declaration(Source, AsWritten, S1) == S6
  {
    hide Statement, VarDeclaration, Synchronize, Advance, Keeps, Quiet, Left;
    AsWrittenStatementChosen();
    Recovers();
  }

  lemma PastEndAgain()
    ensures Advance(Source, S6) == S7
  {
    ScansEndAgain();
  }

  lemma AsWrittenDeclarations()
    ensures Declarations(Source, AsWritten, S1) == S7
  {
    hide Declaration, Advance, Keeps, Quiet, Left;
    AsWrittenDeclaration();
    PastEndAgain();
    assert Declarations(Source, AsWritten, S6) == S7;
  }

  lemma AsWrittenCompiled()
    ensures Compiled(Source, AsWritten, Empty()) == S7.(chunk := ChunkData([Str([97])], [16, 0, 15, 4], [1, 1, 1, 1]))
  {
    ScansA();
    assert Advance(Source, Initial(Empty())) == S1;
    AsWrittenDeclarations();
    AsWrittenReturn();
  }

  lemma AsWrittenReturn()
    ensures EmitByte(S7, OP_RETURN) == S7.(chunk := ChunkData([Str([97])], [16, 0, 15, 4], [1, 1, 1, 1]))
  {
    assert S7.chunk.code + [OP_RETURN] == [16, 0, 15, 4];
    assert S7.chunk.lines + [1] == [1, 1, 1, 1];
  }

  lemma AsWrittenRejectsNotEqual()
    ensures Compile(Source, AsWritten, Empty()) == Outcome(Some(false), ChunkData([Str([97])], [16, 0, 15, 4], [1, 1, 1, 1]), R4)
  {
    AsWrittenCompiled();
  }

  // The states of the corrected compilation, from `b` on.
  const Ab := [Str([97]), Str([98])]
  const U1 := Compiling(Cursor(5, 6, 1), Some(BangEq), Some(NameB), S3.chunk, false, false, [], false)
  const U2 := Compiling(Cursor(6, 7, 1), Some(NameB), Some(Semi), S3.chunk, false, false, [], false)
  const U3 := U2.(chunk := ChunkData(Ab, [16, 0, 16, 1], [1, 1, 1, 1]))
  const U4 := U2.(chunk := ChunkData(Ab, [16, 0, 16, 1, 5, 12], [1, 1, 1, 1, 1, 1]))
  const U5 := Compiling(Cursor(7, 8, 1), Some(Semi), Some(EndFirst), U4.chunk, false, false, [], false)
  const U6 := U5.(chunk := ChunkData(Ab, [16, 0, 16, 1, 5, 12, 15], [1, 1, 1, 1, 1, 1, 1]))
  const U7 := Compiling(Cursor(8, 9, 1), Some(EndFirst), Some(EndAgain), U6.chunk, false, false, [], false)
  const Final := ChunkData(Ab, [16, 0, 16, 1, 5, 12, 15, 4], [1, 1, 1, 1, 1, 1, 1, 1])

  lemma IdentifierB()
    ensures IdentifierConstant(U2, NameB) == (U2.(chunk := ChunkData(Ab, [16, 0], [1, 1])), 1)
  {
    assert Text(NameB) == [98];
    assert IndexOfLast(2) == Some(1);
    assert S3.chunk.constants + [Str([98])] == Ab;
  }

  lemma VariableB()
    ensures NamedVariable(Source, Corrected, U2, NameB, false) == U3
  {
    hide IdentifierConstant, Assignment, Keeps, Quiet, Left;
    IdentifierB();
    var named := U2.(chunk := ChunkData(Ab, [16, 0], [1, 1]));
    assert named.chunk.code + [OP_GET_GLOBAL, 1] == [16, 0, 16, 1];
    assert EmitBytes(named, OP_GET_GLOBAL, 1) == U3;
  }

  lemma PrefixB()
    ensures Prefix(Source, Corrected, U2, false) == U3
  {
    hide NamedVariable, Consume, Expression, UnaryOp, EmitConstant, EmitByte, Keeps, Quiet, Left;
    VariableB();
  }

  lemma OperandB()
    ensures Operand(Source, Corrected, U2, PREC_COMPARISON) == U3
  {
    hide Prefix, InfixLoop, AssignmentTarget, Keeps, Quiet, Left;
    PrefixB();
    StopsAtSemicolon();
    TargetB();
  }

  lemma TargetB()
    ensures AssignmentTarget(Source, U3, false) == U3
  {
    hide Advance, ErrorAt, Keeps, Quiet, Left;
  }

  lemma StopsAtSemicolon()
    ensures InfixLoop(Source, Corrected, U3, PREC_COMPARISON) == U3
  {
    hide Advance, Binary, Keeps, Quiet, Left;
  }

  lemma PastBAgain()
    ensures Advance(Source, U1) == U2
  {
    ScansSemicolon();
  }

  /** With the corrected row, the right operand of `!=` is parsed one level above equality. */
  lemma RightOperand()
    ensures ParsePrecedence(Source, Corrected, U1, PREC_COMPARISON) == U3
  {
    hide Advance, Operand, ErrorAt, Keeps, Quiet, Left;
    PastBAgain();
    OperandB();
  }

  lemma NotEqualCode()
    ensures EmitAll(U3, [5, 12]) == U4
  {
    assert U3.chunk.code + [5, 12] == U4.chunk.code;
    assert U3.chunk.lines + [1, 1] == U4.chunk.lines;
  }

  lemma CorrectedBinary()
    ensures Binary(Source, Corrected, U1) == U4
  {
    hide ParsePrecedence, EmitAll, Keeps, Quiet, Left;
    RightOperand();
    NotEqualCode();
  }

  lemma ThirdToken()
    ensures Advance(Source, S3) == U1
  {
    ScansB();
  }

  lemma CorrectedInfix()
    ensures InfixLoop(Source, Corrected, S3, PREC_ASSIGNMENT) == U4
  {
    hide Advance, Binary, Keeps, Quiet, Left;
    ThirdToken();
    CorrectedBinary();
    CorrectedStops();
  }

  /** After `a != b`, the `;` binds at no level, so the loop stops. */
  lemma CorrectedStops()
    ensures InfixLoop(Source, Corrected, U4, PREC_ASSIGNMENT) == U4
  {
    hide Advance, Binary, Keeps, Quiet, Left;
  }

  lemma CorrectedPrefix()
    ensures Prefix(Source, Corrected, S2, true) == S3
  {
    PrefixA(Corrected);
  }

  lemma CorrectedOperand()
    ensures Operand(Source, Corrected, S2, PREC_ASSIGNMENT) == U4
  {
    hide Prefix, InfixLoop;
    CorrectedPrefix();
    CorrectedInfix();
    assert AssignmentTarget(Source, U4, true) == U4;
  }

  lemma CorrectedExpression()
    ensures Expression(Source, Corrected, S1) == U4
  {
    hide Advance, Operand;
    SecondToken();
    CorrectedOperand();
  }

  lemma CorrectedStatement()
    ensures ExpressionStatement(Source, Corrected, S1) == U6
  {
    hide Expression, Consume, EmitByte, Keeps, Quiet, Left;
    CorrectedExpression();
    CorrectedSemicolon();
    CorrectedPop();
  }

  lemma CorrectedSemicolon()
    ensures Consume(Source, U4, Semicolon, Msg) == U5
  {
    ScansEnd();
  }

  lemma CorrectedPop()
    ensures EmitByte(U5, OP_POP) == U6
  {
    assert U5.chunk.code + [OP_POP] == U6.chunk.code;
    assert U5.chunk.lines + [1] == U6.chunk.lines;
  }

  lemma CorrectedStatementChosen()
    ensures Statement(Source, Corrected, S1) == U6
  {
    hide ExpressionStatement;
    CorrectedStatement();
  }

  lemma CorrectedDeclaration()
    ensures Declaration(Source, Corrected, S1) == U6
  {
    hide Statement;
    CorrectedStatementChosen();
  }

  lemma CorrectedDeclarations()
    ensures Declarations(Source, Corrected, S1) == U7
  {
    hide Declaration;
    CorrectedDeclaration();
    ScansEndAgain();
    assert Advance(Source, U6) == U7;
    assert Declarations(Source, Corrected, U6) == U7;
  }

  lemma CorrectedReturn()
    ensures EmitByte(U7, OP_RETURN) == U7.(chunk := Final)
  {
    assert U7.chunk.code + [OP_RETURN] == Final.code;
    assert U7.chunk.lines + [1] == Final.lines;
  }

  lemma FirstToken()
    ensures Advance(Source, Initial(Empty())) == S1
  {
    ScansA();
  }

  lemma CorrectedCompiled()
    ensures Compiled(Source, Corrected, Empty()) == U7.(chunk := Final)
  {
    hide Advance, Declarations, EmitByte;
    FirstToken();
    CorrectedDeclarations();
    CorrectedReturn();
  }

  lemma CorrectedAcceptsNotEqual()
    ensures Compile(Source, Corrected, Empty()) == Outcome(Some(true), Final, [])
  {
    CorrectedCompiled();
  }
}
