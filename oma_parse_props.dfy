/**
 * What the oma parser promises, stated over the parsing functions for every
 * source text and state: how operators group, that a module is followed by
 * the end of input, what the lookahead can be, the rules for `;` in blocks,
 * when a call is a tag, and how `(` is read.
 */
module OmaParseProps {
  import opened Wrappers
  import opened Bytes
  import opened Source
  import Tokens
  import opened OmaAst
  import opened OmaParseSpec

  // Operators

  /**
   * Every binary operator's right power is one more than its left power, and
   * no binary operator is also postfix or ends an expression.
   */
  lemma InfixPowers(t: Tokens.Token)
    requires InfixPower(t).Some?
    ensures InfixPower(t).value.1 == InfixPower(t).value.0 + 1
    ensures PostfixPower(t).None? && t != Tokens.Semicolon && t != Tokens.End
  {
  }

  /** The operator loop stops, keeping its left operand, at a binary operator whose left power is below `min`. */
  lemma LoopStops(h: Host, c: seq<u8>, s: PState, min: nat, left: Expr, u: Tokens.Lexeme, s3: PState)
    requires Good(c, s) && Peek(c, s) == Ok((u, s3))
    requires InfixPower(u.token).Some? && InfixPower(u.token).value.0 < min
    ensures PrattLoop(h, c, s, min, left) == Ok((left, s3))
  {
    InfixPowers(u.token);
  }

  /**
   * Left associativity: the right operand of a binary operator other than
   * `.` and `=` is an operand followed by no operator of the same or a lower
   * level, so in `a - b - c` the first `-` takes only `b`.
   */
  lemma RightOperandStops(h: Host, c: seq<u8>, s: PState, left: Expr, b: Expr, s2: PState, u: Tokens.Lexeme, s3: PState)
    requires Good(c, s) && s.current.Some? && InfixPower(s.current.value.token).Some?
    requires s.current.value.token != Tokens.Dot && s.current.value.token != Tokens.Equal
    requires Operand(h, c, Consume(c, s).1) == Ok((b, s2))
    requires Peek(c, s2) == Ok((u, s3))
    requires InfixPower(u.token).Some? && InfixPower(u.token).value.0 <= InfixPower(s.current.value.token).value.0
    ensures var t := s.current.value.token;
      InfixStep(h, c, s, left) == Ok((Binary(BinaryOpOf(t).value, left, b), s3))
  {
    var t := s.current.value.token;
    InfixPowers(t);
    var a := Consume(c, s);
    LoopStops(h, c, s2, InfixPower(t).value.1, b, u, s3);
    assert Pratt(h, c, a.1, InfixPower(t).value.1) == Ok((b, s3));
  }

  /** At a binary operator whose left power reaches `min`, the loop takes it and goes on from the new left operand. */
  lemma LoopTakes(h: Host, c: seq<u8>, s: PState, min: nat, left: Expr, u: Tokens.Lexeme, s3: PState)
    requires Good(c, s) && Peek(c, s) == Ok((u, s3))
    requires InfixPower(u.token).Some? && min <= InfixPower(u.token).value.0
    ensures Good(c, s3) && s3.current == Some(u)
    ensures PrattLoop(h, c, s, min, left) ==
      match InfixStep(h, c, s3, left)
      case Err(e) => Err(e)
      case Ok(e) => PrattLoop(h, c, e.1, min, e.0)
  {
    InfixPowers(u.token);
  }

  /** An expression not starting with a keyword is the operator parser at the lowest power. */
  lemma ExprIsPratt(h: Host, c: seq<u8>, s: PState, u: Tokens.Lexeme, s3: PState)
    requires Good(c, s) && Peek(c, s) == Ok((u, s3))
    requires u.token !in {Tokens.Let, Tokens.If, Tokens.Case, Tokens.For, Tokens.While}
    ensures ParseExpr(h, c, s) == Pratt(h, c, s3, 0)
  {
  }

  /**
   * Right associativity of `=`: its value is a whole expression, which by
   * `ExprIsPratt` and `LoopTakes` (the left power of `=` is 1) takes any
   * further `=`, so `a = b = c` assigns `b = c` to `a`.
   */
  lemma AssignValue(h: Host, c: seq<u8>, s: PState, left: Expr)
    requires Good(c, s) && s.current.Some? && s.current.value.token == Tokens.Equal
    ensures var r := InfixStep(h, c, s, left);
      var value := ParseExpr(h, c, Consume(c, s).1);
      (r.Ok? ==> value.Ok? && r.value.0.Assign? && r.value.0.value == value.value.0 && r.value.1 == value.value.1) &&
      (value.Ok? && AssigneeOf(left).Some? ==> r.Ok?)
  {
  }

  /**
   * The value of `=` must convert to an assignee: when the left side does not,
   * a value that parses is still an `InvalidAssignee` error at the left
   * side's span.
   */
  lemma AssignRejects(h: Host, c: seq<u8>, s: PState, left: Expr)
    requires Good(c, s) && s.current.Some? && s.current.value.token == Tokens.Equal
    ensures var value := ParseExpr(h, c, Consume(c, s).1);
      value.Ok? && AssigneeOf(left).None? ==>
        InfixStep(h, c, s, left) == Err(Tokens.Verify(Tokens.VerifyError(ExprSpan(left), Tokens.InvalidAssignee)))
    ensures var value := ParseExpr(h, c, Consume(c, s).1);
      value.Ok? && AssigneeOf(left).Some? ==>
        InfixStep(h, c, s, left) == Ok((Assign(AssigneeOf(left).value, value.value.0), value.value.1))
  {
  }

  // Bindings, arm bodies and patterns

  /**
   * `let` binds only an assignment to a pattern: any other expression after
   * it reaches `unimplemented!`, and a successful `let` is always a `Bind`.
   */
  lemma BindRule(h: Host, c: seq<u8>, s: PState, t: (Tokens.Lexeme, PState), e: (Expr, PState))
    requires Good(c, s) && Expect(c, s, [Tokens.Let]) == Ok(t) && ParseExpr(h, c, t.1) == Ok(e)
    ensures e.0.Assign? && e.0.assignee.AssigneePat? ==>
      BindExpr(h, c, s) == Ok((Bind(e.0.assignee.pat, e.0.value), e.1))
    ensures !(e.0.Assign? && e.0.assignee.AssigneePat?) ==> BindExpr(h, c, s) == Err(Tokens.Panic)
  {
  }

  /** Whatever the input, a `let` that parses is a `Bind`. */
  lemma BindIsBind(h: Host, c: seq<u8>, s: PState)
    requires Good(c, s)
    ensures BindExpr(h, c, s).Ok? ==> BindExpr(h, c, s).value.0.Bind?
  {
  }

  /**
   * An arm body that is not a braced block is an expression that must be
   * followed by `,`: the `,` is taken, and any other lexeme is reported as
   * unexpected, with `,` as the expected token.
   */
  lemma ArmBodyComma(h: Host, c: seq<u8>, s: PState, q: (Tokens.Lexeme, PState), body: (Expr, PState))
    requires Good(c, s) && Peek(c, s) == Ok(q) && q.0.token != Tokens.OpenBrace
    requires ParseExpr(h, c, q.1) == Ok(body)
    ensures Good(c, body.1)
    ensures var n := Advance(c, body.1);
      n.Ok? && n.value.0.token != Tokens.Comma ==> ArmBody(h, c, s) == Err(Unexpected(n.value.0, Some([Tokens.Comma])))
    ensures var n := Advance(c, body.1);
      n.Ok? && n.value.0.token == Tokens.Comma ==> ArmBody(h, c, s) == Ok((body.0, n.value.1))
  {
  }

  /**
   * A pattern is an expression that converts to one; any other expression is
   * an `InvalidCasePat` error at its span.
   */
  lemma PatRule(h: Host, c: seq<u8>, s: PState, e: (Expr, PState))
    requires Good(c, s) && ParseExpr(h, c, s) == Ok(e)
    ensures PatOf(e.0).None? ==>
      ParsePat(h, c, s) == Err(Tokens.Verify(Tokens.VerifyError(ExprSpan(e.0), Tokens.InvalidCasePat)))
    ensures PatOf(e.0).Some? ==> ParsePat(h, c, s) == Ok((PatOf(e.0).value, e.1))
  {
  }

  // The module

  /**
   * `parse` succeeds exactly when the module does, and then the module runs
   * up to the end of input: its block stops at `End`.
   */
  lemma ParseEnds(h: Host, c: seq<u8>)
    ensures ParseModule(h, c).Ok? <==> ModuleFrom(h, c, Init).Ok?
    ensures var m := ModuleFrom(h, c, Init);
      m.Ok? ==> m.value.1.current.Some? && m.value.1.current.value.token == Tokens.End && m.value.1.start == |c|
  {
    assert Good(c, Init);
    var m := ModuleFrom(h, c, Init);
    if m.Ok? {
      var s := m.value.1;
      assert Good(c, s);
      assert Peek(c, s) == Ok((s.current.value, s));
    }
  }

  // The lookahead

  /** Peeking twice sees the same lexeme and consumes nothing more, and what it sees is never a comment. */
  lemma PeekTwice(c: seq<u8>, s: PState)
    requires Good(c, s)
    ensures var p := Peek(c, s);
      p.Ok? ==> p.value.0.token != Tokens.Comment && Good(c, p.value.1) && Peek(c, p.value.1) == p
  {
  }

  // Blocks

  /**
   * An expression other than `if`, `while`, `for` and `case` must be
   * followed by `;` or a terminator; anything else is reported as unexpected,
   * with the terminators as the expected tokens.
   */
  lemma BlockNeedsSeparator(h: Host, c: seq<u8>, s: PState, terminators: seq<Tokens.Token>, span: Span, exprs: seq<Expr>,
                            hasSemi: bool, p: (Tokens.Lexeme, PState), e: (Expr, PState), q: (Tokens.Lexeme, PState))
    requires Good(c, s) && Peek(c, s) == Ok(p) && p.0.token !in terminators
    requires ParseExpr(h, c, p.1) == Ok(e) && Peek(c, e.1) == Ok(q)
    requires !(e.0.If? || e.0.While? || e.0.For? || e.0.Case?)
    requires q.0.token != Tokens.Semicolon && q.0.token !in terminators
    ensures BlockLoop(h, c, s, terminators, span, exprs, hasSemi) == Err(Unexpected(q.0, Some(terminators)))
  {
  }

  /** After `if`, `while`, `for` or `case` the block goes on without a `;`, and then does not end in one. */
  lemma BlockKeywordForms(h: Host, c: seq<u8>, s: PState, terminators: seq<Tokens.Token>, span: Span, exprs: seq<Expr>,
                          hasSemi: bool, p: (Tokens.Lexeme, PState), e: (Expr, PState), q: (Tokens.Lexeme, PState))
    requires Good(c, s) && Peek(c, s) == Ok(p) && p.0.token !in terminators
    requires ParseExpr(h, c, p.1) == Ok(e) && Peek(c, e.1) == Ok(q)
    requires e.0.If? || e.0.While? || e.0.For? || e.0.Case?
    requires q.0.token != Tokens.Semicolon
    ensures Good(c, q.1)
    ensures BlockLoop(h, c, s, terminators, span, exprs, hasSemi) ==
      BlockLoop(h, c, q.1, terminators, Combine(span, ExprSpan(e.0)), exprs + [e.0], false)
  {
  }

  /** An expression followed by a terminator is the block's last one, without a `;`. */
  lemma BlockAtTerminator(h: Host, c: seq<u8>, s: PState, terminators: seq<Tokens.Token>, span: Span, exprs: seq<Expr>,
                          hasSemi: bool, p: (Tokens.Lexeme, PState), e: (Expr, PState), q: (Tokens.Lexeme, PState))
    requires Good(c, s) && Peek(c, s) == Ok(p) && p.0.token !in terminators
    requires ParseExpr(h, c, p.1) == Ok(e) && Peek(c, e.1) == Ok(q)
    requires q.0.token in terminators && q.0.token != Tokens.Semicolon
    ensures Good(c, q.1)
    ensures BlockLoop(h, c, s, terminators, span, exprs, hasSemi) ==
      BlockLoop(h, c, q.1, terminators, Combine(span, ExprSpan(e.0)), exprs + [e.0], false)
  {
  }

  /** A `;` after an expression is taken, and the block so far ends in one. */
  lemma BlockSemicolon(h: Host, c: seq<u8>, s: PState, terminators: seq<Tokens.Token>, span: Span, exprs: seq<Expr>,
                       hasSemi: bool, p: (Tokens.Lexeme, PState), e: (Expr, PState), q: (Tokens.Lexeme, PState))
    requires Good(c, s) && Peek(c, s) == Ok(p) && p.0.token !in terminators
    requires ParseExpr(h, c, p.1) == Ok(e) && Peek(c, e.1) == Ok(q)
    requires q.0.token == Tokens.Semicolon
    ensures Good(c, Consume(c, q.1).1)
    ensures BlockLoop(h, c, s, terminators, span, exprs, hasSemi) ==
      BlockLoop(h, c, Consume(c, q.1).1, terminators, Combine(span, ExprSpan(e.0)), exprs + [e.0], true)
  {
  }

  /** An empty block, one that starts at a terminator, counts as ending in `;`. */
  lemma EmptyBlock(h: Host, c: seq<u8>, s: PState, terminators: seq<Tokens.Token>, p: (Tokens.Lexeme, PState))
    requires Good(c, s) && Peek(c, s) == Ok(p) && p.0.token in terminators
    ensures ParseBlock(h, c, s, terminators) == Ok((Block(p.0.span, [], true), p.1))
  {
    PeekTwice(c, s);
  }

  /**
   * The block loop keeps the expressions it has and appends the rest in
   * order; a block it returns with no expressions has the `;` flag.
   */
  lemma {:induction false} BlockLoopKeeps(h: Host, c: seq<u8>, s: PState, terminators: seq<Tokens.Token>, span: Span,
                                          exprs: seq<Expr>, hasSemi: bool)
    requires Good(c, s) && (exprs == [] ==> hasSemi)
    ensures var r := BlockLoop(h, c, s, terminators, span, exprs, hasSemi);
      r.Ok? ==>
        |exprs| <= |r.value.0.exprs| && r.value.0.exprs[..|exprs|] == exprs &&
        (r.value.0.exprs == [] ==> r.value.0.hasSemi)
    decreases Left(c, s)
  {
    var p := Peek(c, s);
    if p.Ok? && p.value.0.token in terminators {
      assert BlockLoop(h, c, s, terminators, span, exprs, hasSemi) == Ok((Block(span, exprs, hasSemi), p.value.1));
    } else if p.Ok? {
      var e := ParseExpr(h, c, p.value.1);
      if e.Ok? {
        var q := Peek(c, e.value.1);
        if q.Ok? {
          var more := exprs + [e.value.0];
          var span' := Combine(span, ExprSpan(e.value.0));
          hide BlockLoop, ParseExpr, Peek, Combine, ExprSpan;
          if q.value.0.token == Tokens.Semicolon {
            var t := Consume(c, q.value.1);
            BlockSemicolon(h, c, s, terminators, span, exprs, hasSemi, p.value, e.value, q.value);
            BlockLoopKeeps(h, c, t.1, terminators, span', more, true);
            Prefixed(exprs, e.value.0, BlockLoop(h, c, t.1, terminators, span', more, true));
          } else if e.value.0.If? || e.value.0.While? || e.value.0.For? || e.value.0.Case? || q.value.0.token in terminators {
            if e.value.0.If? || e.value.0.While? || e.value.0.For? || e.value.0.Case? {
              BlockKeywordForms(h, c, s, terminators, span, exprs, hasSemi, p.value, e.value, q.value);
            } else {
              BlockAtTerminator(h, c, s, terminators, span, exprs, hasSemi, p.value, e.value, q.value);
            }
            BlockLoopKeeps(h, c, q.value.1, terminators, span', more, false);
            Prefixed(exprs, e.value.0, BlockLoop(h, c, q.value.1, terminators, span', more, false));
          } else {
            BlockNeedsSeparator(h, c, s, terminators, span, exprs, hasSemi, p.value, e.value, q.value);
          }
        }
      }
    }
  }

  lemma Prefixed(exprs: seq<Expr>, e: Expr, r: Parsed<Expr>)
    requires r.Ok? ==> r.value.0.Block? && |exprs + [e]| <= |r.value.0.exprs| && r.value.0.exprs[..|exprs + [e]|] == exprs + [e]
    ensures r.Ok? ==> |exprs| <= |r.value.0.exprs| && r.value.0.exprs[..|exprs|] == exprs && r.value.0.exprs != []
  {
    if r.Ok? {
      var xs := r.value.0.exprs;
      assert xs[..|exprs|] == (exprs + [e])[..|exprs|];
      assert xs[|exprs|] == (exprs + [e])[|exprs|];
    }
  }

  // Calls and tags

  /**
   * A call on a PascalCase name is a tag exactly when it has one argument
   * and that argument is not a spread; on such a name any other argument
   * list is the MultipleTagArguments error, and on any other receiver the
   * call stays a call with its arguments.
   */
  lemma TagRule(h: Host, left: Expr, arguments: seq<CallExprArgument>, close: Span)
    ensures var r := CallOrTag(h, left, arguments, close);
      var pascal := left.Name? && h.pascal(left.ident.content);
      var single := |arguments| == 1 && arguments[0].ArgExpr?;
      (r.Ok? && r.value.Tag? <==> pascal && single) &&
      (r.Ok? && r.value.Tag? ==> r.value.tag == left.ident && r.value.expr == arguments[0].expr) &&
      (r.Err? <==> pascal && !single) &&
      (r.Err? ==> r.error.Verify? && r.error.verify.reason == Tokens.MultipleTagArguments) &&
      (!pascal ==> r == Ok(Call(left, arguments)))
  {
  }

  // Groups and lambdas

  /**
   * At `(`, the parser looks ahead on a copy of the rest of the source: it
   * reads a lambda when a lambda head parses there or a group does not, and
   * a group otherwise; what it reads as a lambda is a lambda.
   */
  lemma GroupOrLambdaChoice(h: Host, c: seq<u8>, s: PState, p: (Tokens.Lexeme, PState))
    requires Good(c, s) && Peek(c, s) == Ok(p) && p.0.token == Tokens.OpenParen
    ensures p.0.span.start <= |c|
    ensures var rest := c[p.0.span.start..];
      var lambda := LambdaHead(h, rest, Init).Ok? || GroupExpr(h, rest, Init).Err?;
      var r := GroupOrLambda(h, c, s);
      Good(c, p.1) &&
      (lambda ==> r == LambdaExpr(h, c, p.1) && (r.Ok? ==> r.value.0.Lambda?)) &&
      (!lambda ==> r == GroupExpr(h, c, p.1))
  {
  }
}
