/**
 * rox's `Compiler` as an object: the scanner it reads, the previous and
 * current tokens, the chunk `compile` installs, the two error flags and
 * what has been written to the error stream. Every method changes the
 * object exactly as the RoxCompile function of the same name maps the state.
 *
 * `halted` records that `add_constant` panicked; from then on every method
 * leaves the object as it is.
 */
module RoxCompiler {
  import opened Wrappers
  import opened Bytes
  import opened RoxScan
  import opened RoxScanProps
  import opened RoxChunk
  import opened RoxCompile

  class Compiler {
    const source: seq<u8>
    const tab: Table
    const scanner: Scanner
    var previous: Option<Token>
    var current: Option<Token>
    var currentChunk: Chunk?
    var hadError: bool
    var panicMode: bool
    /** The reports written to the error stream so far. */
    var reports: seq<Report>
    var halted: bool

    /** The chunk is installed and the scanner reads the compiler's source. */
    predicate Valid()
      reads this
    {
      currentChunk != null && scanner.source == source
    }

    /** The object's state, as the functions of RoxCompile see it. */
    function State(): Compiling
      reads this, scanner, currentChunk
      requires currentChunk != null
    {
      Compiling(scanner.Position(), previous, current, currentChunk.Data(), hadError, panicMode, reports, halted)
    }

    /** `Compiler::new`: a scanner at the start of the source, no tokens, no chunk, no errors. */
    constructor (source: seq<u8>, tab: Table)
      ensures this.source == source && this.tab == tab && fresh(scanner) && scanner.source == source
      ensures scanner.Position() == Cursor(0, 0, 1) && currentChunk == null
      ensures previous == None && current == None && !hadError && !panicMode && reports == [] && !halted
    {
      this.source := source;
      this.tab := tab;
      scanner := new Scanner(source);
      previous := None;
      current := None;
      currentChunk := null;
      hadError := false;
      panicMode := false;
      reports := [];
      halted := false;
    }

    /** `error_at`. */
    method ErrorAt(t: Token, message: seq<u8>)
      requires Valid() && Inv(State()) && WellFormed(t)
      modifies this
      ensures Valid() && currentChunk == old(currentChunk)
      ensures State() == RoxCompile.ErrorAt(old(State()), t, message)
    {
      hide Keeps;
      if halted || panicMode {
        return;
      }
      panicMode := true;
      reports := reports + [Report(t.line, WhereOf(t), message)];
      hadError := true;
    }

    /** `error_at_current`. */
    method ErrorAtCurrent(message: seq<u8>)
      requires Valid() && Started(State())
      modifies this
      ensures Valid() && currentChunk == old(currentChunk)
      ensures State() == RoxCompile.ErrorAt(old(State()), old(current).value, message)
    {
      hide Keeps, RoxCompile.ErrorAt, WhereOf;
      ErrorAt(current.value, message);
    }

    /** `error`: at the previous token. */
    method Error(message: seq<u8>)
      requires Valid() && Ready(State())
      modifies this
      ensures Valid() && currentChunk == old(currentChunk)
      ensures State() == RoxCompile.ErrorAt(old(State()), old(previous).value, message)
    {
      hide Keeps, RoxCompile.ErrorAt, WhereOf;
      ErrorAt(previous.value, message);
    }

    /** `advance`: the current token becomes the previous one, and the next token that is not an Error the current one. */
    method Advance()
      requires Valid() && Inv(State())
      modifies this, scanner
      ensures Valid() && currentChunk == old(currentChunk)
      ensures State() == RoxCompile.Advance(source, old(State()))
    {
      hide Keeps, Quiet, Left, ScanPast;
      if halted {
        return;
      }
      previous := current;
      SkipErrors();
    }

    /** The loop of `advance`: scan, and report and skip every Error token. */
    method SkipErrors()
      requires Valid() && Inv(State()) && !halted
      modifies this, scanner
      ensures Valid() && currentChunk == old(currentChunk)
      ensures State() == ScanPast(source, old(State()))
    {
      hide Keeps, Quiet, RoxCompile.ErrorAt, WhereOf, Scan;
      ghost var start := State();
      while true
        invariant Valid() && currentChunk == old(currentChunk) && Inv(State()) && !halted
        invariant ScanPast(source, State()) == ScanPast(source, start)
        decreases Remaining(source, scanner.Position())
      {
        ghost var before := State();
        var token := scanner.ScanToken();
        current := Some(token);
        ScanWellFormed(source, before.cursor);
        ScanProgress(source, before.cursor);
        if token.ty != TokenType.Error {
          return;
        }
        ErrorAtCurrent(Text(token));
      }
    }

    /** `check`. */
    method Check(ty: TokenType) returns (r: bool)
      requires current.Some?
      ensures r == (current.value.ty == ty)
    {
      r := current.value.ty == ty;
    }

    /** `expect`. */
    method Expect(ty: TokenType) returns (matched: bool)
      requires Valid() && Started(State())
      modifies this, scanner
      ensures Valid() && currentChunk == old(currentChunk)
      ensures (matched, State()) == RoxCompile.Expect(source, old(State()), ty)
    {
      hide Keeps, Quiet, Left, Inv, RoxCompile.Advance;
      matched := Check(ty);
      if matched {
        Advance();
      }
    }

    /** `consume`. */
    method Consume(ty: TokenType, message: seq<u8>)
      requires Valid() && Ready(State())
      modifies this, scanner
      ensures Valid() && currentChunk == old(currentChunk)
      ensures State() == RoxCompile.Consume(source, old(State()), ty, message)
    {
      hide Keeps, Quiet, Left, Inv, RoxCompile.ErrorAt, WhereOf, RoxCompile.Advance;
      if current.value.ty == ty {
        Advance();
        return;
      }
      ErrorAtCurrent(message);
    }

    /** `emit_byte`. */
    method EmitByte(b: u8)
      requires Valid() && Ready(State())
      modifies currentChunk
      ensures State() == RoxCompile.EmitByte(old(State()), b)
    {
      hide Keeps, Inv;
      if halted {
        return;
      }
      currentChunk.Write(b, previous.value.line);
    }

    /** `emit_bytes`. */
    method EmitBytes(b1: u8, b2: u8)
      requires Valid() && Ready(State())
      modifies currentChunk
      ensures State() == RoxCompile.EmitBytes(old(State()), b1, b2)
    {
      hide Keeps, Inv, RoxCompile.EmitByte;
      EmitByte(b1);
      EmitByte(b2);
    }

    /** `make_constant`; where the index would not fit in a byte the source panics. */
    method MakeConstant(v: Value) returns (index: u8)
      requires Valid() && Ready(State())
      modifies this, currentChunk
      ensures Valid() && currentChunk == old(currentChunk)
      ensures (State(), index) == AddConstant(old(State()), v)
    {
      hide Keeps, Inv;
      if halted {
        return 0;
      }
      var added := currentChunk.AddConstant(v);
      if added.None? {
        halted := true;
        return 0;
      }
      index := added.value;
    }

    /** `emit_constant`. */
    method EmitConstant(v: Value)
      requires Valid() && Ready(State())
      modifies this, currentChunk
      ensures Valid() && currentChunk == old(currentChunk)
      ensures State() == RoxCompile.EmitConstant(old(State()), v)
    {
      hide Keeps, Inv, RoxCompile.EmitBytes, AddConstant;
      var constant := MakeConstant(v);
      EmitBytes(OP_CONSTANT, constant);
    }

    /** `identifier_constant`. */
    method IdentifierConstant(name: Token) returns (index: u8)
      requires Valid() && Ready(State()) && WellFormed(name) && name.ty != Eof
      modifies this, currentChunk
      ensures Valid() && currentChunk == old(currentChunk)
      ensures (State(), index) == RoxCompile.IdentifierConstant(old(State()), name)
    {
      hide Keeps, Inv, AddConstant;
      index := MakeConstant(Str(Text(name)));
    }

    /** `parse_precedence`. */
    method ParsePrecedence(prec: nat)
      requires Valid() && Started(State()) && prec >= PREC_ASSIGNMENT
      modifies this, scanner, currentChunk
      ensures Valid() && currentChunk == old(currentChunk)
      ensures State() == RoxCompile.ParsePrecedence(source, tab, old(State()), prec)
      decreases Left(source, State()), 0
    {
      hide Keeps, Quiet, Left, Inv, RoxCompile.ErrorAt, WhereOf, RoxCompile.Advance,
        RoxCompile.Prefix, RoxCompile.Binary;
      if halted {
        return;
      }
      Advance();
      if RuleFor(tab, previous.value.ty).prefix.None? {
        Error(Ascii("expected expression"));
        return;
      }
      ghost var advanced := State();
      var canAssign := prec <= PREC_ASSIGNMENT;
      Prefix(canAssign);
      ghost var operand := State();
      while !halted && prec <= RuleFor(tab, current.value.ty).precedence
        invariant Valid() && currentChunk == old(currentChunk) && Ready(State())
        invariant Left(source, State()) < Left(source, old(State()))
        invariant InfixLoop(source, tab, State(), prec) == InfixLoop(source, tab, operand, prec)
        decreases Left(source, State())
      {
        Advance();
        Binary();
      }
      if canAssign {
        var equal := Expect(Equal);
        if equal {
          Error(Ascii("invalid assignment target"));
        }
      }
    }

    /** The prefix function of the previous token's rule. */
    method Prefix(canAssign: bool)
      requires Valid() && Ready(State()) && RuleFor(tab, previous.value.ty).prefix.Some?
      modifies this, scanner, currentChunk
      ensures Valid() && currentChunk == old(currentChunk)
      ensures State() == RoxCompile.Prefix(source, tab, old(State()), canAssign)
      decreases Left(source, State()), 3
    {
      hide Keeps, Quiet, Left, RoxCompile.ErrorAt, WhereOf, RoxCompile.Advance, RoxCompile.Check,
        RoxCompile.Consume, RoxCompile.EmitByte, RoxCompile.EmitConstant, RoxCompile.Expression,
        UnaryOp, RoxCompile.NamedVariable;
      match RuleFor(tab, previous.value.ty).prefix.value
      case Grouping => Grouping();
      case Unary => Unary();
      case Variable => NamedVariable(previous.value, canAssign);
      case StringLiteral => StringLiteral();
      case NumberLiteral => Number();
      case Literal => Literal();
    }

    /** `expression`. */
    method Expression()
      requires Valid() && Started(State())
      modifies this, scanner, currentChunk
      ensures Valid() && currentChunk == old(currentChunk)
      ensures State() == RoxCompile.Expression(source, tab, old(State()))
      decreases Left(source, State()), 1
    {
      hide Keeps, Quiet, Left, RuleFor, Inv, RoxCompile.ParsePrecedence;
      ParsePrecedence(PREC_ASSIGNMENT);
    }

    /** `grouping`. */
    method Grouping()
      requires Valid() && Ready(State()) && RuleFor(tab, previous.value.ty).prefix == Some(PrefixFn.Grouping)
      modifies this, scanner, currentChunk
      ensures Valid() && currentChunk == old(currentChunk)
      ensures State() == RoxCompile.Prefix(source, tab, old(State()), false)
      decreases Left(source, State()), 2
    {
      hide Keeps, Quiet, Left, RuleFor, Inv, RoxCompile.ErrorAt, WhereOf, RoxCompile.Advance,
        RoxCompile.Check, RoxCompile.Consume, RoxCompile.EmitByte, RoxCompile.EmitConstant,
        RoxCompile.Expression, UnaryOp, RoxCompile.NamedVariable;
      Expression();
      Consume(RightParen, Ascii("expected ')' after expression."));
    }

    /** `unary`. */
    method Unary()
      requires Valid() && Ready(State()) && previous.value.ty in {Minus, Bang}
      modifies this, scanner, currentChunk
      ensures Valid() && currentChunk == old(currentChunk)
      ensures State() == UnaryOp(source, tab, old(State()))
      decreases Left(source, State()), 2
    {
      hide Keeps, Quiet, Left, RuleFor, Inv, RoxCompile.EmitByte, RoxCompile.ParsePrecedence;
      var operator := previous.value.ty;
      ParsePrecedence(PREC_UNARY);
      if operator == Minus {
        EmitByte(OP_NEGATE);
      } else {
        EmitByte(OP_NOT);
      }
    }

    /** `named_variable`. */
    method NamedVariable(name: Token, canAssign: bool)
      requires Valid() && Ready(State()) && WellFormed(name) && name.ty != Eof
      modifies this, scanner, currentChunk
      ensures Valid() && currentChunk == old(currentChunk)
      ensures State() == RoxCompile.NamedVariable(source, tab, old(State()), name, canAssign)
      decreases Left(source, State()), 2
    {
      hide Quiet, RuleFor, Inv, RoxCompile.Advance, RoxCompile.EmitBytes,
        RoxCompile.IdentifierConstant, RoxCompile.Expression;
      var arg := IdentifierConstant(name);
      var assign := false;
      if canAssign {
        assign := Expect(Equal);
      }
      if assign {
        Expression();
        EmitBytes(OP_SET_GLOBAL, arg);
      } else {
        EmitBytes(OP_GET_GLOBAL, arg);
      }
    }

    /** `string`: the text between the quotes. */
    method StringLiteral()
      requires Valid() && Ready(State()) && previous.value.ty == String
      modifies this, currentChunk
      ensures Valid() && currentChunk == old(currentChunk)
      ensures State() == RoxCompile.Prefix(source, tab, old(State()), false)
    {
      hide Keeps, Quiet, Left, RoxCompile.ErrorAt, WhereOf, RoxCompile.Advance, RoxCompile.Check,
        RoxCompile.Consume, RoxCompile.EmitByte, RoxCompile.EmitConstant, RoxCompile.Expression,
        UnaryOp, RoxCompile.NamedVariable;
      var text := Text(previous.value);
      EmitConstant(Str(text[1..|text| - 1]));
    }

    /** `number`: the digits as they were written. */
    method Number()
      requires Valid() && Ready(State()) && previous.value.ty == TokenType.Number
      modifies this, currentChunk
      ensures Valid() && currentChunk == old(currentChunk)
      ensures State() == RoxCompile.Prefix(source, tab, old(State()), false)
    {
      hide Keeps, Quiet, Left, RoxCompile.ErrorAt, WhereOf, RoxCompile.Advance, RoxCompile.Check,
        RoxCompile.Consume, RoxCompile.EmitByte, RoxCompile.EmitConstant, RoxCompile.Expression,
        UnaryOp, RoxCompile.NamedVariable;
      EmitConstant(Value.Number(Text(previous.value)));
    }

    /** `literal`. */
    method Literal()
      requires Valid() && Ready(State()) && RuleFor(tab, previous.value.ty).prefix == Some(PrefixFn.Literal)
      modifies currentChunk
      ensures State() == RoxCompile.Prefix(source, tab, old(State()), false)
    {
      hide Keeps, Quiet, Left, RuleFor, Inv, RoxCompile.ErrorAt, WhereOf, RoxCompile.Advance,
        RoxCompile.Check, RoxCompile.Consume, RoxCompile.EmitByte, RoxCompile.EmitConstant,
        RoxCompile.Expression, UnaryOp, RoxCompile.NamedVariable;
      var op := if previous.value.ty == False then OP_FALSE else if previous.value.ty == Nil then OP_NIL else OP_TRUE;
      EmitByte(op);
    }

    /** `binary`. */
    method Binary()
      requires Valid() && Ready(State()) && RuleFor(tab, previous.value.ty).infix
      modifies this, scanner, currentChunk
      ensures Valid() && currentChunk == old(currentChunk)
      ensures State() == RoxCompile.Binary(source, tab, old(State()))
      decreases Left(source, State()), 2
    {
      hide Keeps, Quiet, Left, RuleFor, Inv, BinaryCode, EmitAll, RoxCompile.ParsePrecedence;
      var operator := previous.value.ty;
      ParsePrecedence(RuleFor(tab, operator).precedence + 1);
      EmitOperator(operator);
    }

    /**
     * The operator's code at the end of `binary`: the match of the source
     * is the table `BinaryCode`, whose entries are one or two bytes.
     */
    method EmitOperator(operator: TokenType)
      requires Valid() && Ready(State())
      modifies currentChunk
      ensures State() == EmitAll(old(State()), BinaryCode(operator))
    {
      hide Keeps, Inv, RoxCompile.EmitByte, RoxCompile.EmitBytes, EmitAll, BinaryCode;
      var code := BinaryCode(operator);
      EmittedAll(State(), code);
      if |code| == 1 {
        EmitByte(code[0]);
      } else if |code| == 2 {
        EmitBytes(code[0], code[1]);
      }
    }

    /** `expression_statement`. */
    method ExpressionStatement()
      requires Valid() && Started(State())
      modifies this, scanner, currentChunk
      ensures Valid() && currentChunk == old(currentChunk)
      ensures State() == RoxCompile.ExpressionStatement(source, tab, old(State()))
    {
      hide Keeps, Quiet, Left, RuleFor, Inv, RoxCompile.ErrorAt, WhereOf, RoxCompile.Advance,
        RoxCompile.Check, RoxCompile.Consume, RoxCompile.EmitByte, RoxCompile.Expression;
      Expression();
      Consume(Semicolon, Ascii("expect ';' after value"));
      EmitByte(OP_POP);
    }

    /** `print_statement`. */
    method PrintStatement()
      requires Valid() && Started(State())
      modifies this, scanner, currentChunk
      ensures Valid() && currentChunk == old(currentChunk)
      ensures State() == RoxCompile.PrintStatement(source, tab, old(State()))
    {
      hide Keeps, Quiet, Left, RuleFor, Inv, RoxCompile.ErrorAt, WhereOf, RoxCompile.Advance,
        RoxCompile.Check, RoxCompile.Consume, RoxCompile.EmitByte, RoxCompile.Expression;
      Expression();
      Consume(Semicolon, Ascii("expect ';' after value"));
      EmitByte(OP_PRINT);
    }

    /** `statement`. */
    method Statement()
      requires Valid() && Started(State())
      modifies this, scanner, currentChunk
      ensures Valid() && currentChunk == old(currentChunk)
      ensures State() == RoxCompile.Statement(source, tab, old(State()))
    {
      hide Keeps, Quiet, Left, Inv, RoxCompile.Advance, RoxCompile.Check, RoxCompile.Expect,
        RoxCompile.ExpressionStatement, RoxCompile.PrintStatement;
      var isPrint := Expect(Print);
      if isPrint {
        PrintStatement();
      } else {
        ExpressionStatement();
      }
    }

    /** `parse_variable`. */
    method ParseVariable(message: seq<u8>) returns (global: u8)
      requires Valid() && Ready(State()) && previous.value.ty != Eof
      modifies this, scanner, currentChunk
      ensures Valid() && currentChunk == old(currentChunk)
      ensures (State(), global) == RoxCompile.ParseVariable(source, old(State()), message)
    {
      hide Quiet, Left, RoxCompile.ErrorAt, WhereOf, RoxCompile.Advance, RoxCompile.Consume,
        RoxCompile.IdentifierConstant;
      Consume(Identifier, message);
      global := IdentifierConstant(previous.value);
    }

    /** `define_variable`. */
    method DefineVariable(global: u8)
      requires Valid() && Ready(State())
      modifies currentChunk
      ensures State() == RoxCompile.EmitBytes(old(State()), OP_DEFINE_GLOBAL, global)
    {
      hide Keeps, Inv, RoxCompile.EmitBytes;
      EmitBytes(OP_DEFINE_GLOBAL, global);
    }

    /** The initializer of `var_declaration`, or `nil`, and the `;` after it. */
    method Initializer()
      requires Valid() && Ready(State())
      modifies this, scanner, currentChunk
      ensures Valid() && currentChunk == old(currentChunk)
      ensures State() == RoxCompile.Initializer(source, tab, old(State()))
    {
      hide Keeps, Quiet, Left, RuleFor, Inv, RoxCompile.ErrorAt, WhereOf, RoxCompile.Advance,
        RoxCompile.Check, RoxCompile.Expect, RoxCompile.Consume, RoxCompile.EmitByte,
        RoxCompile.Expression;
      var initialized := Expect(Equal);
      if initialized {
        Expression();
      } else {
        EmitByte(OP_NIL);
      }
      Consume(Semicolon, Ascii("expect ';' after variable declaration"));
    }

    /** `var_declaration`. */
    method VarDeclaration()
      requires Valid() && Ready(State()) && previous.value.ty != Eof
      modifies this, scanner, currentChunk
      ensures Valid() && currentChunk == old(currentChunk)
      ensures State() == RoxCompile.VarDeclaration(source, tab, old(State()))
    {
      hide Keeps, Quiet, Left, Inv, RoxCompile.Check, RoxCompile.EmitBytes,
        RoxCompile.ParseVariable, RoxCompile.Initializer;
      var global := ParseVariable(Ascii("expected variable name"));
      Initializer();
      DefineVariable(global);
    }

    /** `synchronize`. */
    method Synchronize()
      requires Valid() && Ready(State())
      modifies this, scanner
      ensures Valid() && currentChunk == old(currentChunk)
      ensures State() == RoxCompile.Synchronize(source, old(State()))
    {
      hide Keeps, Quiet, Left, RoxCompile.Advance;
      if halted {
        return;
      }
      panicMode := false;
      ghost var calm := State();
      while current.value.ty != Eof && previous.value.ty != Semicolon && !StartsStatement(current.value.ty)
        invariant Valid() && currentChunk == old(currentChunk) && Ready(State()) && !halted
        invariant SyncLoop(source, State()) == SyncLoop(source, calm)
        decreases Left(source, State())
      {
        Advance();
      }
    }

    /** `declaration`. */
    method Declaration()
      requires Valid() && Started(State())
      modifies this, scanner, currentChunk
      ensures Valid() && currentChunk == old(currentChunk)
      ensures State() == RoxCompile.Declaration(source, tab, old(State()))
    {
      hide Keeps, Quiet, Left, Inv, RoxCompile.Advance, RoxCompile.Expect, RoxCompile.Statement,
        RoxCompile.VarDeclaration, RoxCompile.Synchronize;
      if halted {
        return;
      }
      var isVar := Expect(Var);
      if isVar {
        VarDeclaration();
      } else {
        Statement();
      }
      if panicMode {
        Synchronize();
      }
    }

    /** `emit_return`. */
    method EmitReturn()
      requires Valid() && Ready(State())
      modifies currentChunk
      ensures State() == RoxCompile.EmitByte(old(State()), OP_RETURN)
    {
      hide Keeps, Inv, RoxCompile.EmitByte;
      EmitByte(OP_RETURN);
    }

    /**
     * `compile` on a compiler fresh from `Compiler::new`: the verdict, or
     * None where the source panics, and the chunk and reports left behind
     * are those of the Compile function.
     */
    method Compile(chunk: Chunk) returns (result: Option<bool>)
      requires currentChunk == null && scanner.source == source && RoxChunk.Valid(chunk.Data())
      requires scanner.Position() == Cursor(0, 0, 1) && previous == None && current == None
      requires !hadError && !panicMode && reports == [] && !halted
      modifies this, scanner, chunk
      ensures Valid() && currentChunk == chunk
      ensures Outcome(result, chunk.Data(), reports) == RoxCompile.Compile(source, tab, old(chunk.Data()))
    {
      hide Keeps, Quiet, Left, RoxCompile.Advance, RoxCompile.EmitByte, RoxCompile.Declaration;
      currentChunk := chunk;
      assert State() == Initial(old(chunk.Data()));
      Advance();
      ghost var first := State();
      ghost var before := State();
      var atEnd := Expect(Eof);
      while !atEnd && !halted
        invariant Valid() && currentChunk == chunk && Started(State())
        invariant Started(before) && (atEnd, State()) == RoxCompile.Expect(source, before, Eof)
        invariant Declarations(source, tab, before) == Declarations(source, tab, first)
        decreases Left(source, State())
      {
        Declaration();
        before := State();
        atEnd := Expect(Eof);
      }
      EmitReturn();
      result := if halted then None else Some(!hadError);
    }
  }

  /** The bytes `EmitAll` writes, one or two at a time, as `binary` writes them. */
  lemma EmittedAll(s: Compiling, code: seq<u8>)
    requires Ready(s) && |code| <= 2
    ensures |code| == 0 ==> EmitAll(s, code) == s
    ensures |code| == 1 ==> EmitAll(s, code) == EmitByte(s, code[0])
    ensures |code| == 2 ==> EmitAll(s, code) == EmitBytes(s, code[0], code[1])
  {
    if |code| > 0 {
      var once := EmitByte(s, code[0]);
      assert EmitAll(s, code) == EmitAll(once, code[1..]);
      if |code| == 2 {
        assert EmitAll(once, code[1..]) == EmitAll(EmitByte(once, code[1]), code[2..]);
      }
    }
  }
}
