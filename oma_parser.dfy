/**
 * The oma parser as the source writes it: an object holding the source, a
 * lexer whose `start` and `end` advance, and a one-lexeme lookahead that
 * `peek` fills and `advance` takes. Each routine is a method proved to do
 * what the function of the same name in `OmaParseSpec` says, from the state
 * it started in; the loops of the source are loops here.
 */
module OmaParser {
  import opened Wrappers
  import opened Bytes
  import opened Source
  import opened OmaAst
  import Tokens
  import L = Lexer
  import S = OmaParseSpec

  /** A method's result and the state it left, as a specification function returns them. */
  function Outcome<T>(r: Result<T, Tokens.CompileError>, s: S.PState): S.Parsed<T> {
    match r
    case Ok(v) => Ok((v, s))
    case Err(e) => Err(e)
  }

  /** `Parser::new(source).parse()`. */
  method ParseSource(host: S.Host, source: seq<u8>) returns (r: Result<Module, Tokens.CompileError>)
    ensures r == S.ParseModule(host, source)
  {
    var parser := new Parser(host, source);
    r := parser.Parse();
  }

  class Parser {
    const host: S.Host
    const source: seq<u8>
    const lexer: L.Lexer
    var current: Option<Tokens.Lexeme>

    /** The lexer's positions and the lookahead. */
    function State(): S.PState
      reads this, lexer
    {
      S.PState(lexer.start, lexer.end, current)
    }

    predicate Valid()
      reads this, lexer
    {
      lexer.source == source && S.Good(source, State())
    }

    function Left(): nat
      reads this, lexer
      requires Valid()
    {
      S.Left(source, State())
    }

    constructor (host: S.Host, source: seq<u8>)
      ensures this.host == host && this.source == source && fresh(lexer)
      ensures Valid() && State() == S.Init
    {
      this.host := host;
      this.source := source;
      lexer := new L.Lexer(source);
      current := None;
    }

    /** `parse`: the module, then End. */
    method Parse() returns (r: Result<Module, Tokens.CompileError>)
      requires Valid() && State() == S.Init
      modifies this, lexer
      ensures r == S.ParseModule(host, source)
    {
      var m :- ModuleFrom();
      var _ :- Expect([Tokens.End]);
      return Ok(m);
    }

    // The lookahead

    method Peek() returns (r: Result<Tokens.Lexeme, Tokens.CompileError>)
      requires Valid()
      modifies this, lexer
      ensures Outcome(r, State()) == S.Peek(source, old(State()))
      ensures r.Ok? ==> Valid()
    {
      if current.Some? {
        return Ok(current.value);
      }
      ghost var s0 := State();
      while true
        invariant Valid() && current.None?
        invariant S.Peek(source, State()) == S.Peek(source, s0)
        decreases |source| - lexer.end
      {
        L.ScanSpan(source, lexer.end);
        var lexeme := lexer.Next();
        if lexeme.Err? {
          return Err(lexeme.error);
        }
        if lexeme.value.token != Tokens.Comment {
          current := Some(lexeme.value);
          return Ok(lexeme.value);
        }
      }
    }

    method Advance() returns (r: Result<Tokens.Lexeme, Tokens.CompileError>)
      requires Valid()
      modifies this, lexer
      ensures Outcome(r, State()) == S.Advance(source, old(State()))
      ensures r.Ok? ==> Valid()
    {
      var _ :- Peek();
      r := Ok(current.value);
      current := None;
    }

    method Expect(expected: seq<Tokens.Token>) returns (r: Result<Tokens.Lexeme, Tokens.CompileError>)
      requires Valid()
      modifies this, lexer
      ensures Outcome(r, State()) == S.Expect(source, old(State()), expected)
      ensures r.Ok? ==> Valid()
    {
      var lexeme :- Advance();
      if lexeme.token in expected {
        return Ok(lexeme);
      }
      return Err(Tokens.Parse(Tokens.TokensError(lexeme.span, lexeme.token, Some(expected))));
    }

    /** `expect([t]).unwrap()`. */
    method Take(t: Tokens.Token) returns (r: Result<Tokens.Lexeme, Tokens.CompileError>)
      requires Valid() && t != Tokens.End
      modifies this, lexer
      ensures Outcome(r, State()) == S.Take(source, old(State()), t)
      ensures r.Ok? ==> Valid()
    {
      var e := Expect([t]);
      if e.Err? {
        return Err(Tokens.Panic);
      }
      return e;
    }

    /** `expect([t]).unwrap()` once `peek` has shown a `t`: the lookahead, taken. */
    method Consume() returns (r: Tokens.Lexeme)
      requires Valid() && current.Some? && current.value.token != Tokens.End
      modifies this
      ensures (r, State()) == S.Consume(source, old(State()))
      ensures Valid()
    {
      r := current.value;
      current := None;
    }

    // Names and literals

    method ParseIdent() returns (r: Result<Ident, Tokens.CompileError>)
      requires Valid()
      modifies this, lexer
      ensures Outcome(r, State()) == S.ParseIdent(source, old(State()))
      ensures r.Ok? ==> Valid()
    {
      var lexeme :- Take(Tokens.Ident);
      return Ok(Ident(lexeme.span, Content(lexeme.span)));
    }

    method ParseLit() returns (r: Result<Lit, Tokens.CompileError>)
      requires Valid()
      modifies this, lexer
      ensures Outcome(r, State()) == S.ParseLit(host, source, old(State()))
      ensures r.Ok? ==> Valid()
    {
      var l :- Peek();
      if l.token == Tokens.Number {
        var lexeme := Consume();
        return Ok(NumberLit(lexeme.span, host.number(Content(lexeme.span))));
      } else if l.token == Tokens.Bool {
        var lexeme := Consume();
        var text := CharsOf(Content(lexeme.span));
        if text == "true" {
          return Ok(BoolLit(lexeme.span, true));
        } else if text == "false" {
          return Ok(BoolLit(lexeme.span, false));
        }
        return Err(Tokens.Panic);
      } else if l.token == Tokens.String {
        var lexeme := Consume();
        var content := Content(lexeme.span);
        if |content| < 2 {
          return Err(Tokens.Panic);
        }
        return Ok(StringLit(lexeme.span, content[1..|content| - 1]));
      } else if l.token == Tokens.Null {
        var lexeme := Consume();
        return Ok(NullLit(lexeme.span));
      }
      return Err(S.Unexpected(l, None));
    }

    // Modules and blocks

    method ModuleFrom() returns (r: Result<Module, Tokens.CompileError>)
      requires Valid()
      modifies this, lexer
      ensures Outcome(r, State()) == S.ModuleFrom(host, source, old(State()))
      ensures r.Ok? ==> Valid()
    {
      var body :- ParseBlock([Tokens.End]);
      return Ok(Module(body));
    }

    /** `block_expr`: its loop keeps the span, the expressions and the `;` flag. */
    method ParseBlock(terminators: seq<Tokens.Token>) returns (r: Result<Expr, Tokens.CompileError>)
      requires Valid()
      modifies this, lexer
      ensures Outcome(r, State()) == S.ParseBlock(host, source, old(State()), terminators)
      ensures r.Ok? ==> Valid()
      decreases Left(), 20
    {
      ghost var s0 := State();
      var first :- Peek();
      var span := first.span;
      var exprs: seq<Expr> := [];
      var hasSemi := true;
      while true
        invariant Valid() && S.Left(source, State()) <= S.Left(source, s0)
        invariant S.BlockLoop(host, source, State(), terminators, span, exprs, hasSemi) == S.ParseBlock(host, source, s0, terminators)
        decreases Left()
      {
        var p :- Peek();
        if p.token in terminators {
          return Ok(Block(span, exprs, hasSemi));
        }
        var e :- ParseExpr();
        span := Combine(span, ExprSpan(e));
        var q :- Peek();
        if q.token == Tokens.Semicolon {
          var _ := Consume();
          hasSemi := true;
        } else if e.If? || e.While? || e.For? || e.Case? {
          hasSemi := false;
        } else if q.token !in terminators {
          return Err(S.Unexpected(q, Some(terminators)));
        } else {
          hasSemi := false;
        }
        exprs := exprs + [e];
      }
    }

    // Expressions

    method ParseExpr() returns (r: Result<Expr, Tokens.CompileError>)
      requires Valid()
      modifies this, lexer
      ensures Outcome(r, State()) == S.ParseExpr(host, source, old(State()))
      ensures r.Ok? ==> Valid()
      decreases Left(), 14
    {
      var p :- Peek();
      var t := p.token;
      if t == Tokens.Let {
        r := BindExpr();
      } else if t == Tokens.If {
        r := IfExpr();
      } else if t == Tokens.Case {
        r := CaseExpr();
      } else if t == Tokens.For {
        r := ForExpr();
      } else if t == Tokens.While {
        r := WhileExpr();
      } else {
        r := Pratt(0);
      }
    }

    method BindExpr() returns (r: Result<Expr, Tokens.CompileError>)
      requires Valid()
      modifies this, lexer
      ensures Outcome(r, State()) == S.BindExpr(host, source, old(State()))
      ensures r.Ok? ==> Valid()
      decreases Left(), 12
    {
      var _ :- Expect([Tokens.Let]);
      var e :- ParseExpr();
      r := S.BindOf(e);
    }

    method IfExpr() returns (r: Result<Expr, Tokens.CompileError>)
      requires Valid()
      modifies this, lexer
      ensures Outcome(r, State()) == S.IfExpr(host, source, old(State()))
      ensures r.Ok? ==> Valid()
      decreases Left(), 12
    {
      var i :- Take(Tokens.If);
      var condition :- ParseExpr();
      var body :- Braced();
      var p :- Peek();
      if p.token == Tokens.Else {
        var _ := Consume();
        var otherwise :- ElseBranch();
        return Ok(If(Combine(i.span, ExprSpan(otherwise)), condition, body.0, Some(otherwise)));
      }
      return Ok(If(Combine(i.span, body.2.span), condition, body.0, None));
    }

    method ElseBranch() returns (r: Result<Expr, Tokens.CompileError>)
      requires Valid()
      modifies this, lexer
      ensures Outcome(r, State()) == S.ElseBranch(host, source, old(State()))
      ensures r.Ok? ==> Valid()
      decreases Left(), 14
    {
      var q :- Peek();
      if q.token == Tokens.If {
        r := IfExpr();
      } else if q.token == Tokens.OpenBrace {
        var b :- Braced();
        return Ok(b.0);
      } else {
        return Err(S.Unexpected(q, Some([Tokens.If, Tokens.OpenBrace])));
      }
    }

    method Braced() returns (r: Result<(Expr, Tokens.Lexeme, Tokens.Lexeme), Tokens.CompileError>)
      requires Valid()
      modifies this, lexer
      ensures Outcome(r, State()) == S.Braced(host, source, old(State()))
      ensures r.Ok? ==> Valid()
      decreases Left(), 2
    {
      var open :- Expect([Tokens.OpenBrace]);
      var body :- ParseBlock([Tokens.CloseBrace]);
      var close := Consume();
      return Ok((body, open, close));
    }

    /** `case_expr`: its loop collects the arms. */
    method CaseExpr() returns (r: Result<Expr, Tokens.CompileError>)
      requires Valid()
      modifies this, lexer
      ensures Outcome(r, State()) == S.CaseExpr(host, source, old(State()))
      ensures r.Ok? ==> Valid()
      decreases Left(), 12
    {
      ghost var s0 := State();
      var k :- Take(Tokens.Case);
      var subject :- ParseExpr();
      var _ :- Expect([Tokens.OpenBrace]);
      ghost var s1 := State();
      var arms: seq<Arm> := [];
      while true
        invariant Valid() && S.Left(source, State()) < S.Left(source, s0)
        invariant S.Good(source, s1) && S.Arms(host, source, State(), arms) == S.Arms(host, source, s1, [])
        decreases Left()
      {
        var p :- Peek();
        if p.token == Tokens.CloseBrace {
          break;
        }
        var pat :- ParsePat();
        var _ :- Expect([Tokens.Arrow]);
        var body :- ArmBody();
        arms := arms + [Arm(pat, body)];
      }
      var close := Consume();
      return Ok(Case(Combine(k.span, close.span), subject, arms));
    }

    method ArmBody() returns (r: Result<Expr, Tokens.CompileError>)
      requires Valid()
      modifies this, lexer
      ensures Outcome(r, State()) == S.ArmBody(host, source, old(State()))
      ensures r.Ok? ==> Valid()
      decreases Left(), 16
    {
      var q :- Peek();
      if q.token == Tokens.OpenBrace {
        var b :- Braced();
        return Ok(b.0);
      }
      var body :- ParseExpr();
      var _ :- Expect([Tokens.Comma]);
      return Ok(body);
    }

    method ForExpr() returns (r: Result<Expr, Tokens.CompileError>)
      requires Valid()
      modifies this, lexer
      ensures Outcome(r, State()) == S.ForExpr(host, source, old(State()))
      ensures r.Ok? ==> Valid()
      decreases Left(), 12
    {
      var f :- Take(Tokens.For);
      var item :- ParsePat();
      var _ :- Expect([Tokens.In]);
      var iterable :- ParseExpr();
      var body :- Braced();
      return Ok(For(Combine(f.span, body.2.span), item, iterable, body.0));
    }

    method WhileExpr() returns (r: Result<Expr, Tokens.CompileError>)
      requires Valid()
      modifies this, lexer
      ensures Outcome(r, State()) == S.WhileExpr(host, source, old(State()))
      ensures r.Ok? ==> Valid()
      decreases Left(), 12
    {
      var w :- Take(Tokens.While);
      var condition :- ParseExpr();
      var body :- Braced();
      return Ok(While(Combine(w.span, body.2.span), condition, body.0));
    }

    /** `pratt_expr`: an operand, then a loop folding the operators that bind at least `min` into `left`. */
    method Pratt(min: nat) returns (r: Result<Expr, Tokens.CompileError>)
      requires Valid()
      modifies this, lexer
      ensures Outcome(r, State()) == S.Pratt(host, source, old(State()), min)
      ensures r.Ok? ==> Valid()
      decreases Left(), 12
    {
      ghost var s0 := State();
      var left :- Operand();
      while true
        invariant Valid() && S.Left(source, State()) < S.Left(source, s0)
        invariant S.PrattLoop(host, source, State(), min, left) == S.Pratt(host, source, s0, min)
        decreases Left()
      {
        var p :- Peek();
        var t := p.token;
        if t == Tokens.Semicolon || t == Tokens.End {
          return Ok(left);
        } else if S.PostfixPower(t).Some? {
          if S.PostfixPower(t).value < min {
            return Ok(left);
          }
          left :- PostfixStep(left);
        } else if S.InfixPower(t).Some? {
          if S.InfixPower(t).value.0 < min {
            return Ok(left);
          }
          left :- InfixStep(left);
        } else {
          return Ok(left);
        }
      }
    }

    method Operand() returns (r: Result<Expr, Tokens.CompileError>)
      requires Valid()
      modifies this, lexer
      ensures Outcome(r, State()) == S.Operand(host, source, old(State()))
      ensures r.Ok? ==> Valid()
      decreases Left(), 11
    {
      var p :- Peek();
      var t := p.token;
      if t == Tokens.OpenParen {
        r := GroupOrLambda();
      } else if t == Tokens.OpenBrace {
        r := MapExpr();
      } else if t == Tokens.OpenBracket {
        r := ArrayExpr();
      } else if t in {Tokens.Number, Tokens.Bool, Tokens.String, Tokens.Null} {
        var l :- ParseLit();
        return Ok(Literal(l));
      } else if t == Tokens.Ident {
        // `ident()` on an identifier lookahead: its `expect` takes that lexeme
        var name := Consume();
        return Ok(Name(Ident(name.span, Content(name.span))));
      } else {
        r := Prefix();
      }
    }

    method PostfixStep(left: Expr) returns (r: Result<Expr, Tokens.CompileError>)
      requires Valid() && current.Some? && S.PostfixPower(current.value.token).Some?
      modifies this, lexer
      ensures Outcome(r, State()) == S.PostfixStep(host, source, old(State()), left)
      ensures r.Ok? ==> Valid()
      decreases Left(), 1
    {
      var a := Consume();
      if a.token == Tokens.OpenBracket {
        var field :- ParseExpr();
        var _ :- Expect([Tokens.CloseBracket]);
        return Ok(Access(AccessExpr(left, FieldExpr(field))));
      }
      // `(`, the only other postfix operator
      var arguments :- Arguments();
      var close := Consume();
      r := S.CallOrTag(host, left, arguments, close.span);
    }

    method InfixStep(left: Expr) returns (r: Result<Expr, Tokens.CompileError>)
      requires Valid() && current.Some? && S.InfixPower(current.value.token).Some?
      modifies this, lexer
      ensures Outcome(r, State()) == S.InfixStep(host, source, old(State()), left)
      ensures r.Ok? ==> Valid()
      decreases Left(), 1
    {
      var a := Consume();
      var t := a.token;
      if t == Tokens.Dot {
        var field :- ParseIdent();
        return Ok(Access(AccessExpr(left, FieldIdent(field))));
      } else if t == Tokens.Equal {
        var value :- ParseExpr();
        r := S.AssignOf(left, value);
      } else {
        var right :- Pratt(S.InfixPower(t).value.1);
        return Ok(Binary(BinaryOpOf(t).value, left, right));
      }
    }

    method Prefix() returns (r: Result<Expr, Tokens.CompileError>)
      requires Valid()
      modifies this, lexer
      ensures Outcome(r, State()) == S.Prefix(host, source, old(State()))
      ensures r.Ok? ==> Valid()
      decreases Left(), 10
    {
      var p :- Peek();
      var power := S.PrefixPower(p.token);
      if power.None? {
        return Err(S.Unexpected(p, None));
      }
      var op := Consume();
      var operand :- Pratt(power.value);
      return Ok(Unary(Combine(op.span, ExprSpan(operand)), UnaryOpOf(op.token).value, operand));
    }

    /** `call_expr_arguments`: its loop collects the arguments, up to the `)` it leaves as the lookahead. */
    method Arguments() returns (r: Result<seq<CallExprArgument>, Tokens.CompileError>)
      requires Valid()
      modifies this, lexer
      ensures Outcome(r, State()) == S.Arguments(host, source, old(State()), [])
      ensures r.Ok? ==> Valid()
      decreases Left(), 18
    {
      ghost var s0 := State();
      var arguments: seq<CallExprArgument> := [];
      while true
        invariant Valid() && S.Left(source, State()) <= S.Left(source, s0)
        invariant S.Arguments(host, source, State(), arguments) == S.Arguments(host, source, s0, [])
        decreases Left()
      {
        var p :- Peek();
        if p.token == Tokens.CloseParen {
          return Ok(arguments);
        }
        var argument: CallExprArgument;
        if p.token == Tokens.DotDot {
          argument :- SpreadArgument();
        } else {
          argument :- PlainArgument();
        }
        arguments := arguments + [argument];
        var q :- Peek();
        if q.token == Tokens.Comma {
          var _ := Consume();
        } else if q.token != Tokens.CloseParen {
          return Err(S.Unexpected(q, Some([Tokens.Comma, Tokens.CloseParen])));
        }
      }
    }

    method SpreadArgument() returns (r: Result<CallExprArgument, Tokens.CompileError>)
      requires Valid()
      modifies this, lexer
      ensures Outcome(r, State()) == S.SpreadArgument(host, source, old(State()))
      ensures r.Ok? ==> Valid()
      decreases Left(), 16
    {
      var _ :- Take(Tokens.DotDot);
      var e :- ParseExpr();
      return Ok(ArgSpread(e));
    }

    method PlainArgument() returns (r: Result<CallExprArgument, Tokens.CompileError>)
      requires Valid()
      modifies this, lexer
      ensures Outcome(r, State()) == S.PlainArgument(host, source, old(State()))
      ensures r.Ok? ==> Valid()
      decreases Left(), 16
    {
      var e :- ParseExpr();
      return Ok(ArgExpr(e));
    }

    // Groups and lambdas

    /**
     * `group_or_lambda_expr`: two fresh parsers over the source from the `(`
     * on try a lambda head and a group; this parser then parses a lambda or a
     * group.
     */
    method GroupOrLambda() returns (r: Result<Expr, Tokens.CompileError>)
      requires Valid()
      modifies this, lexer
      ensures Outcome(r, State()) == S.GroupOrLambda(host, source, old(State()))
      ensures r.Ok? ==> Valid()
      decreases Left(), 10
    {
      var p :- Peek();
      if p.token != Tokens.OpenParen {
        return Err(Tokens.Panic);
      }
      var rest := source[p.span.start..];
      var headProbe := new Parser(host, rest);
      var head := headProbe.LambdaHead();
      var groupProbe := new Parser(host, rest);
      var group := groupProbe.GroupExpr();
      if head.Ok? || group.Err? {
        r := LambdaExpr();
      } else {
        r := GroupExpr();
      }
    }

    method GroupExpr() returns (r: Result<Expr, Tokens.CompileError>)
      requires Valid()
      modifies this, lexer
      ensures Outcome(r, State()) == S.GroupExpr(host, source, old(State()))
      ensures r.Ok? ==> Valid()
      decreases Left(), 6
    {
      var _ :- Take(Tokens.OpenParen);
      var e :- ParseExpr();
      var _ :- Expect([Tokens.CloseParen]);
      return Ok(e);
    }

    method LambdaExpr() returns (r: Result<Expr, Tokens.CompileError>)
      requires Valid()
      modifies this, lexer
      ensures Outcome(r, State()) == S.LambdaExpr(host, source, old(State()))
      ensures r.Ok? ==> Valid()
      decreases Left(), 8
    {
      var head :- LambdaHead();
      var (parameters, headSpan) := head;
      var body :- LambdaBody();
      return Ok(Lambda(Combine(headSpan, body.1), parameters, body.0));
    }

    method LambdaBody() returns (r: Result<(Expr, Span), Tokens.CompileError>)
      requires Valid()
      modifies this, lexer
      ensures Outcome(r, State()) == S.LambdaBody(host, source, old(State()))
      ensures r.Ok? ==> Valid()
      decreases Left(), 16
    {
      var p :- Peek();
      if p.token == Tokens.OpenBrace {
        var b :- Braced();
        return Ok((b.0, Combine(b.1.span, b.2.span)));
      }
      var body :- ParseExpr();
      return Ok((body, ExprSpan(body)));
    }

    /** `lambda_expr_head`: its loop collects the parameters. */
    method LambdaHead() returns (r: Result<(seq<LambdaExprParameter>, Span), Tokens.CompileError>)
      requires Valid()
      modifies this, lexer
      ensures Outcome(r, State()) == S.LambdaHead(host, source, old(State()))
      ensures r.Ok? ==> Valid()
      decreases Left(), 6
    {
      ghost var s0 := State();
      var open :- Take(Tokens.OpenParen);
      ghost var s1 := State();
      var parameters: seq<LambdaExprParameter> := [];
      while true
        invariant Valid() && S.Left(source, State()) < S.Left(source, s0)
        invariant S.Good(source, s1) && S.Parameters(host, source, State(), parameters) == S.Parameters(host, source, s1, [])
        decreases Left()
      {
        var p :- Peek();
        if p.token == Tokens.CloseParen {
          break;
        }
        var parameter: LambdaExprParameter;
        if p.token == Tokens.DotDot {
          parameter :- SpreadParameter();
        } else {
          parameter :- PatParameter();
        }
        parameters := parameters + [parameter];
        var q :- Peek();
        if q.token == Tokens.Comma {
          var _ := Consume();
        } else if q.token != Tokens.CloseParen {
          return Err(S.Unexpected(q, Some([Tokens.Comma, Tokens.CloseParen])));
        }
      }
      var _ := Consume();
      var arrow :- Expect([Tokens.Arrow]);
      return Ok((parameters, Combine(open.span, arrow.span)));
    }

    method SpreadParameter() returns (r: Result<LambdaExprParameter, Tokens.CompileError>)
      requires Valid()
      modifies this, lexer
      ensures Outcome(r, State()) == S.SpreadParameter(source, old(State()))
      ensures r.Ok? ==> Valid()
    {
      var _ :- Take(Tokens.DotDot);
      var i :- ParseIdent();
      return Ok(ParamSpread(i));
    }

    method PatParameter() returns (r: Result<LambdaExprParameter, Tokens.CompileError>)
      requires Valid()
      modifies this, lexer
      ensures Outcome(r, State()) == S.PatParameter(host, source, old(State()))
      ensures r.Ok? ==> Valid()
      decreases Left(), 18
    {
      var p :- ParsePat();
      return Ok(ParamPat(p));
    }

    // Maps, arrays and patterns

    /** `map_expr`: its loop collects the pairs. */
    method MapExpr() returns (r: Result<Expr, Tokens.CompileError>)
      requires Valid()
      modifies this, lexer
      ensures Outcome(r, State()) == S.MapExpr(host, source, old(State()))
      ensures r.Ok? ==> Valid()
      decreases Left(), 10
    {
      ghost var s0 := State();
      var open :- Take(Tokens.OpenBrace);
      ghost var s1 := State();
      var pairs: seq<MapExprPair> := [];
      while true
        invariant Valid() && S.Left(source, State()) < S.Left(source, s0)
        invariant S.Good(source, s1) && S.MapPairs(host, source, State(), pairs) == S.MapPairs(host, source, s1, [])
        decreases Left()
      {
        var p :- Peek();
        if p.token == Tokens.CloseBrace {
          break;
        }
        var pair :- MapPair();
        pairs := pairs + [pair];
        var q :- Peek();
        if q.token == Tokens.Comma {
          var _ := Consume();
        } else if q.token != Tokens.CloseBrace {
          return Err(S.Unexpected(q, Some([Tokens.Comma, Tokens.CloseBrace, Tokens.Colon])));
        }
      }
      var close := Consume();
      return Ok(Map(Combine(open.span, close.span), pairs));
    }

    /** One pair of a map: `..e`, `[key]: value`, `name: value`, or `name` alone. */
    method MapPair() returns (r: Result<MapExprPair, Tokens.CompileError>)
      requires Valid() && current.Some?
      modifies this, lexer
      ensures Outcome(r, State()) == S.MapPair(host, source, old(State()))
      ensures r.Ok? ==> Valid()
      decreases Left(), 8
    {
      var t := current.value.token;
      if t == Tokens.DotDot {
        var _ := Consume();
        var e :- ParseExpr();
        return Ok(PairSpread(e));
      } else if t == Tokens.OpenBracket {
        var _ := Consume();
        var key :- ParseExpr();
        var _ :- Expect([Tokens.CloseBracket]);
        var _ :- Expect([Tokens.Colon]);
        var value :- ParseExpr();
        return Ok(PairExpr(key, value));
      }
      var field :- ParseIdent();
      var q :- Peek();
      if q.token == Tokens.Colon {
        var _ := Consume();
        var value :- ParseExpr();
        return Ok(PairIdent(field, value));
      }
      return Ok(PairIdent(field, Name(field)));
    }

    /** `array_expr`: its loop collects the items. */
    method ArrayExpr() returns (r: Result<Expr, Tokens.CompileError>)
      requires Valid()
      modifies this, lexer
      ensures Outcome(r, State()) == S.ArrayExpr(host, source, old(State()))
      ensures r.Ok? ==> Valid()
      decreases Left(), 10
    {
      ghost var s0 := State();
      var open :- Take(Tokens.OpenBracket);
      ghost var s1 := State();
      var items: seq<ArrayExprItem> := [];
      while true
        invariant Valid() && S.Left(source, State()) < S.Left(source, s0)
        invariant S.Good(source, s1) && S.Items(host, source, State(), items) == S.Items(host, source, s1, [])
        decreases Left()
      {
        var p :- Peek();
        if p.token == Tokens.CloseBracket {
          break;
        }
        var item: ArrayExprItem;
        if p.token == Tokens.DotDot {
          item :- SpreadItem();
        } else {
          item :- PlainItem();
        }
        items := items + [item];
        var q :- Peek();
        if q.token == Tokens.Comma {
          var _ := Consume();
        } else if q.token != Tokens.CloseBracket {
          return Err(S.Unexpected(q, Some([Tokens.Comma, Tokens.CloseBracket])));
        }
      }
      var close := Consume();
      return Ok(Array(Combine(open.span, close.span), items));
    }

    method SpreadItem() returns (r: Result<ArrayExprItem, Tokens.CompileError>)
      requires Valid()
      modifies this, lexer
      ensures Outcome(r, State()) == S.SpreadItem(host, source, old(State()))
      ensures r.Ok? ==> Valid()
      decreases Left(), 16
    {
      var _ :- Take(Tokens.DotDot);
      var e :- ParseExpr();
      return Ok(ItemSpread(e));
    }

    method PlainItem() returns (r: Result<ArrayExprItem, Tokens.CompileError>)
      requires Valid()
      modifies this, lexer
      ensures Outcome(r, State()) == S.PlainItem(host, source, old(State()))
      ensures r.Ok? ==> Valid()
      decreases Left(), 16
    {
      var e :- ParseExpr();
      return Ok(ItemExpr(e));
    }

    /** `pat`: an expression that converts to a pattern. */
    method ParsePat() returns (r: Result<Pat, Tokens.CompileError>)
      requires Valid()
      modifies this, lexer
      ensures Outcome(r, State()) == S.ParsePat(host, source, old(State()))
      ensures r.Ok? ==> Valid()
      decreases Left(), 16
    {
      var e :- ParseExpr();
      r := S.PatFrom(e);
    }
  }
}
