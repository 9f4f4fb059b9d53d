/**
 * What the oma parser computes, as functions of the source text and the
 * parser's state: the lexer's `start` and `end` and the one-lexeme lookahead.
 * Each function follows one parsing routine and returns the syntax it built
 * and the state after it, or the error the routine returns (`Panic` for its
 * `unwrap`s, `expect`s and `unimplemented!` paths).
 */
module OmaParseSpec {
  import opened Wrappers
  import opened Bytes
  import opened Source
  import Tokens
  import opened OmaAst
  import L = Lexer

  /**
   * What the parser takes from libraries: the PascalCase test of the
   * `inflections` crate, and the bit pattern of the `f64` a number's text
   * parses to.
   */
  datatype Host = Host(pascal: seq<u8> -> bool, number: seq<u8> -> nat)

  /** The lexer's `start` and `end`, and the parser's `current`. */
  datatype PState = PState(start: nat, end: nat, current: Option<Tokens.Lexeme>)

  const Init: PState := PState(0, 0, None)

  /** A state the lexer can be in: a lookahead is the lexeme last scanned. */
  predicate Good(c: seq<u8>, s: PState) {
    s.start <= s.end <= |c| &&
    (s.current.Some? ==>
      s.current.value.span == Span(c, s.start, s.end) && s.current.value.token != Tokens.Comment &&
      (s.current.value.token == Tokens.End <==> s.start == |c|) &&
      (s.current.value.token != Tokens.End ==> s.start < s.end))
  }

  /** The input not yet consumed: from the lookahead if there is one, else from the lexer. */
  function Left(c: seq<u8>, s: PState): nat
    requires Good(c, s)
  {
    if s.current.Some? then |c| - s.start else |c| - s.end
  }

  type Parsed<T> = Result<(T, PState), Tokens.CompileError>

  /** A success that never moves back. */
  predicate Kept<T>(c: seq<u8>, s: PState, r: Parsed<T>)
    requires Good(c, s)
  {
    r.Ok? ==> Good(c, r.value.1) && Left(c, r.value.1) <= Left(c, s)
  }

  /** A success that consumes input. */
  predicate Took<T>(c: seq<u8>, s: PState, r: Parsed<T>)
    requires Good(c, s)
  {
    r.Ok? ==> Good(c, r.value.1) && Left(c, r.value.1) < Left(c, s)
  }

  /** A lexeme of the source `c`. */
  predicate Of(c: seq<u8>, l: Tokens.Lexeme) {
    l.span.source == c && WithinSource(l.span)
  }

  // The lookahead

  /** `peek`: the lookahead, else lexemes from the lexer until one is not a comment. */
  function Peek(c: seq<u8>, s: PState): (r: Parsed<Tokens.Lexeme>)
    requires Good(c, s)
    ensures Kept(c, s, r)
    ensures r.Ok? ==> r.value.1.current == Some(r.value.0) && r.value.0.token != Tokens.Comment && Of(c, r.value.0)
    ensures r.Ok? ==> r.value.1.start <= r.value.1.end
    ensures s.current.Some? ==> r == Ok((s.current.value, s))
    decreases |c| - s.end
  {
    if s.current.Some? then Ok((s.current.value, s))
    else
      var step := L.Scan(c, s.end);
      L.ScanSpan(c, s.end);
      if step.result.Err? then Err(step.result.error)
      else if step.result.value.token == Tokens.Comment then Peek(c, PState(step.start, step.end, None))
      else Ok((step.result.value, PState(step.start, step.end, Some(step.result.value))))
  }

  /** `advance`: the lookahead, taken. */
  function Advance(c: seq<u8>, s: PState): (r: Parsed<Tokens.Lexeme>)
    requires Good(c, s)
    ensures Kept(c, s, r)
    ensures r.Ok? ==> r.value.1.current.None? && r.value.0.token != Tokens.Comment && Of(c, r.value.0)
    ensures r.Ok? && r.value.0.token != Tokens.End ==> Left(c, r.value.1) < Left(c, s)
    ensures r.Ok? && r.value.0.token == Tokens.End ==> r.value.1.start == |c|
  {
    var p :- Peek(c, s);
    Ok((p.0, p.1.(current := None)))
  }

  /** `expect`: the next lexeme, which must be one of `expected`. */
  function Expect(c: seq<u8>, s: PState, expected: seq<Tokens.Token>): (r: Parsed<Tokens.Lexeme>)
    requires Good(c, s)
    ensures Kept(c, s, r)
    ensures r.Ok? ==> r.value.0.token in expected && r.value.1.current.None? && Of(c, r.value.0)
    ensures Tokens.End !in expected ==> Took(c, s, r)
    ensures r.Ok? && r.value.0.token == Tokens.End ==> r.value.1.start == |c|
  {
    var p :- Advance(c, s);
    if p.0.token in expected then Ok(p) else Err(Tokens.Parse(Tokens.TokensError(p.0.span, p.0.token, Some(expected))))
  }

  /** `expect([t]).unwrap()`, and the `.expect(..)` variants: as `expect`, but a mismatch panics. */
  function Take(c: seq<u8>, s: PState, t: Tokens.Token): (r: Parsed<Tokens.Lexeme>)
    requires Good(c, s) && t != Tokens.End
    ensures Took(c, s, r)
    ensures r.Ok? ==> r.value.0.token == t && r.value.1.current.None? && Of(c, r.value.0)
    ensures r.Err? && Expect(c, s, [t]).Ok? ==> false
  {
    var e := Expect(c, s, [t]);
    if e.Err? then Err(Tokens.Panic) else e
  }

  /**
   * `expect([t]).unwrap()` when the lookahead is already a `t`: the lookahead,
   * taken, which cannot fail.
   */
  function Consume(c: seq<u8>, s: PState): (r: (Tokens.Lexeme, PState))
    requires Good(c, s) && s.current.Some? && s.current.value.token != Tokens.End
    ensures r.0 == s.current.value && r.1.current.None? && Of(c, r.0)
    ensures Good(c, r.1) && Left(c, r.1) < Left(c, s)
    ensures Take(c, s, r.0.token) == Ok(r)
  {
    (s.current.value, s.(current := None))
  }

  /** `build_error`: the lookahead, reported as unexpected. */
  function Unexpected(l: Tokens.Lexeme, expected: Option<seq<Tokens.Token>>): Tokens.CompileError {
    Tokens.Parse(Tokens.TokensError(l.span, l.token, expected))
  }

  // Binding powers

  function PrefixPower(t: Tokens.Token): Option<nat> {
    if t == Tokens.Dash || t == Tokens.Bang then Some(15) else None
  }

  function InfixPower(t: Tokens.Token): Option<(nat, nat)> {
    if t == Tokens.Equal then Some((1, 2))
    else if t == Tokens.And || t == Tokens.Or then Some((3, 4))
    else if t == Tokens.EqualEqual || t == Tokens.BangEqual then Some((5, 6))
    else if t in {Tokens.Greater, Tokens.GreaterEqual, Tokens.Less, Tokens.LessEqual} then Some((7, 8))
    else if t == Tokens.Plus || t == Tokens.Dash then Some((9, 10))
    else if t == Tokens.Star || t == Tokens.Slash then Some((11, 12))
    else if t == Tokens.Dot then Some((13, 14))
    else None
  }

  function PostfixPower(t: Tokens.Token): Option<nat> {
    if t == Tokens.OpenParen || t == Tokens.OpenBracket then Some(16) else None
  }

  // Building nodes

  /** `ident`: an identifier lexeme, taken; any other token panics. */
  function ParseIdent(c: seq<u8>, s: PState): (r: Parsed<Ident>)
    requires Good(c, s)
    ensures Took(c, s, r)
    ensures r.Ok? ==> r.value.1.current.None?
  {
    var p :- Take(c, s, Tokens.Ident);
    Ok((OmaAst.Ident(p.0.span, Content(p.0.span)), p.1))
  }

  /** `lit`: a number, bool, string or null lexeme; a string drops its quotes. */
  function ParseLit(h: Host, c: seq<u8>, s: PState): (r: Parsed<Lit>)
    requires Good(c, s)
    ensures Took(c, s, r)
  {
    var p :- Peek(c, s);
    var l := p.0;
    if l.token == Tokens.Number then
      var q := Consume(c, p.1);
      Ok((NumberLit(q.0.span, h.number(Content(q.0.span))), q.1))
    else if l.token == Tokens.Bool then
      var q := Consume(c, p.1);
      var text := CharsOf(Content(q.0.span));
      if text == "true" then Ok((BoolLit(q.0.span, true), q.1))
      else if text == "false" then Ok((BoolLit(q.0.span, false), q.1))
      else Err(Tokens.Panic)
    else if l.token == Tokens.String then
      var q := Consume(c, p.1);
      var text := Content(q.0.span);
      if |text| < 2 then Err(Tokens.Panic) else Ok((StringLit(q.0.span, text[1..|text| - 1]), q.1))
    else if l.token == Tokens.Null then
      var q := Consume(c, p.1);
      Ok((NullLit(q.0.span), q.1))
    else Err(Unexpected(l, None))
  }

  /** A call's receiver and arguments: a PascalCase name applied to one plain argument is a tag. */
  function CallOrTag(h: Host, left: Expr, arguments: seq<CallExprArgument>, close: Span): Result<Expr, Tokens.CompileError> {
    if left.Name? && h.pascal(left.ident.content) then
      var span := Combine(ExprSpan(left), close);
      if |arguments| == 1 && arguments[0].ArgExpr? then Ok(Tag(span, left.ident, arguments[0].expr))
      else Err(Tokens.Verify(Tokens.VerifyError(span, Tokens.MultipleTagArguments)))
    else Ok(Call(left, arguments))
  }

  /** `left = value`: the left side must convert to an assignee. */
  function AssignOf(left: Expr, value: Expr): Result<Expr, Tokens.CompileError> {
    var assignee := AssigneeOf(left);
    if assignee.None? then Err(Tokens.Verify(Tokens.VerifyError(ExprSpan(left), Tokens.InvalidAssignee)))
    else Ok(Assign(assignee.value, value))
  }

  /** `let` takes an assignment to a pattern apart; anything else is unimplemented. */
  function BindOf(e: Expr): Result<Expr, Tokens.CompileError> {
    if e.Assign? && e.assignee.AssigneePat? then Ok(Bind(e.assignee.pat, e.value)) else Err(Tokens.Panic)
  }

  /** `pat`: an expression that converts to a pattern. */
  function PatFrom(e: Expr): Result<Pat, Tokens.CompileError> {
    var p := PatOf(e);
    if p.None? then Err(Tokens.Verify(Tokens.VerifyError(ExprSpan(e), Tokens.InvalidCasePat))) else Ok(p.value)
  }

  // The routines; each may call another at the same position only if that one has a lower rank.

  /** `parse`: a module, then the end of input. */
  function ParseModule(h: Host, c: seq<u8>): Result<Module, Tokens.CompileError> {
    var m :- ModuleFrom(h, c, Init);
    var e :- Expect(c, m.1, [Tokens.End]);
    Ok(m.0)
  }

  /** `module`: a block running to the end of input. */
  function ModuleFrom(h: Host, c: seq<u8>, s: PState): (r: Parsed<Module>)
    requires Good(c, s)
    ensures Kept(c, s, r)
  {
    var b :- ParseBlock(h, c, s, [Tokens.End]);
    Ok((Module(b.0), b.1))
  }

  /** `block_expr`: expressions up to one of the terminators, which stays the lookahead. */
  function ParseBlock(h: Host, c: seq<u8>, s: PState, terminators: seq<Tokens.Token>): (r: Parsed<Expr>)
    requires Good(c, s)
    ensures Kept(c, s, r)
    ensures r.Ok? ==> r.value.0.Block? && r.value.1.current.Some? && r.value.1.current.value.token in terminators
    decreases Left(c, s), 20
  {
    hide Good, Left, Of, ExprSpan, Combine;
    var p :- Peek(c, s);
    BlockLoop(h, c, p.1, terminators, p.0.span, [], true)
  }

  /** The loop of `block_expr`, with the span, the expressions and the `;` flag so far. */
  function BlockLoop(h: Host, c: seq<u8>, s: PState, terminators: seq<Tokens.Token>, span: Span, exprs: seq<Expr>, hasSemi: bool): (r: Parsed<Expr>)
    requires Good(c, s)
    ensures Kept(c, s, r)
    ensures r.Ok? ==> r.value.0.Block? && r.value.1.current.Some? && r.value.1.current.value.token in terminators
    decreases Left(c, s), 18
  {
    hide Good, Left, Of, ExprSpan, Combine;
    var p :- Peek(c, s);
    if p.0.token in terminators then Ok((Block(span, exprs, hasSemi), p.1))
    else
      var e :- ParseExpr(h, c, p.1);
      var span' := Combine(span, ExprSpan(e.0));
      var q :- Peek(c, e.1);
      if q.0.token == Tokens.Semicolon then
        var t := Consume(c, q.1);
        BlockLoop(h, c, t.1, terminators, span', exprs + [e.0], true)
      else if e.0.If? || e.0.While? || e.0.For? || e.0.Case? then
        BlockLoop(h, c, q.1, terminators, span', exprs + [e.0], false)
      else if q.0.token !in terminators then Err(Unexpected(q.0, Some(terminators)))
      else BlockLoop(h, c, q.1, terminators, span', exprs + [e.0], false)
  }

  /** `expr`: a keyword form, or an operator expression. */
  function ParseExpr(h: Host, c: seq<u8>, s: PState): (r: Parsed<Expr>)
    requires Good(c, s)
    ensures Took(c, s, r)
    decreases Left(c, s), 14
  {
    hide Good, Left, Of, ExprSpan, Combine;
    var p :- Peek(c, s);
    var t := p.0.token;
    if t == Tokens.Let then BindExpr(h, c, p.1)
    else if t == Tokens.If then IfExpr(h, c, p.1)
    else if t == Tokens.Case then CaseExpr(h, c, p.1)
    else if t == Tokens.For then ForExpr(h, c, p.1)
    else if t == Tokens.While then WhileExpr(h, c, p.1)
    else Pratt(h, c, p.1, 0)
  }

  /** `bind_expr`: `let`, then an assignment to a pattern. */
  function BindExpr(h: Host, c: seq<u8>, s: PState): (r: Parsed<Expr>)
    requires Good(c, s)
    ensures Took(c, s, r)
    decreases Left(c, s), 12
  {
    hide Good, Left, Of, ExprSpan, Combine;
    var t :- Expect(c, s, [Tokens.Let]);
    var e :- ParseExpr(h, c, t.1);
    var b :- BindOf(e.0);
    Ok((b, e.1))
  }

  /** `if_expr`: the condition, a braced body, and an optional `else` part. */
  function IfExpr(h: Host, c: seq<u8>, s: PState): (r: Parsed<Expr>)
    requires Good(c, s)
    ensures Took(c, s, r)
    decreases Left(c, s), 12
  {
    hide Good, Left, Of, ExprSpan, Combine;
    var i :- Take(c, s, Tokens.If);
    var condition :- ParseExpr(h, c, i.1);
    var body :- Braced(h, c, condition.1);
    var p :- Peek(c, body.1);
    if p.0.token == Tokens.Else then
      var otherwise :- ElseBranch(h, c, Consume(c, p.1).1);
      Ok((If(Combine(i.0.span, ExprSpan(otherwise.0)), condition.0, body.0.0, Some(otherwise.0)), otherwise.1))
    else Ok((If(Combine(i.0.span, body.0.2.span), condition.0, body.0.0, None), p.1))
  }

  /** After `else`: another `if`, or a braced block. */
  function ElseBranch(h: Host, c: seq<u8>, s: PState): (r: Parsed<Expr>)
    requires Good(c, s)
    ensures Took(c, s, r)
    decreases Left(c, s), 14
  {
    hide Good, Left, Of, ExprSpan, Combine;
    var q :- Peek(c, s);
    if q.0.token == Tokens.If then IfExpr(h, c, q.1)
    else if q.0.token == Tokens.OpenBrace then
      var b :- Braced(h, c, q.1);
      Ok((b.0.0, b.1))
    else Err(Unexpected(q.0, Some([Tokens.If, Tokens.OpenBrace])))
  }

  /**
   * `{`, a block up to `}`, and the `}`: the block with the two braces. The
   * close brace is what the block ended on, so taking it cannot fail.
   */
  function Braced(h: Host, c: seq<u8>, s: PState): (r: Parsed<(Expr, Tokens.Lexeme, Tokens.Lexeme)>)
    requires Good(c, s)
    ensures Took(c, s, r)
    ensures r.Ok? ==> (r.value.0.0.Block? && r.value.0.1.token == Tokens.OpenBrace &&
      r.value.0.2.token == Tokens.CloseBrace && r.value.1.current.None?)
    decreases Left(c, s), 2
  {
    hide Good, Left, Of, ExprSpan, Combine;
    var open :- Expect(c, s, [Tokens.OpenBrace]);
    var body :- ParseBlock(h, c, open.1, [Tokens.CloseBrace]);
    var close := Consume(c, body.1);
    Ok(((body.0, open.0, close.0), close.1))
  }

  /** `case_expr`: the subject, then arms in braces. */
  function CaseExpr(h: Host, c: seq<u8>, s: PState): (r: Parsed<Expr>)
    requires Good(c, s)
    ensures Took(c, s, r)
    decreases Left(c, s), 12
  {
    hide Good, Left, Of, ExprSpan, Combine;
    var k :- Take(c, s, Tokens.Case);
    var subject :- ParseExpr(h, c, k.1);
    var open :- Expect(c, subject.1, [Tokens.OpenBrace]);
    var arms :- Arms(h, c, open.1, []);
    var close := Consume(c, arms.1);
    Ok((Case(Combine(k.0.span, close.0.span), subject.0, arms.0), close.1))
  }

  /** The arm loop of `case_expr`: a pattern, `->` and a body, up to `}`. */
  function Arms(h: Host, c: seq<u8>, s: PState, arms: seq<Arm>): (r: Parsed<seq<Arm>>)
    requires Good(c, s)
    ensures Kept(c, s, r)
    ensures r.Ok? ==> r.value.1.current.Some? && r.value.1.current.value.token == Tokens.CloseBrace
    decreases Left(c, s), 18
  {
    hide Good, Left, Of, ExprSpan, Combine;
    var p :- Peek(c, s);
    if p.0.token == Tokens.CloseBrace then Ok((arms, p.1))
    else
      var pat :- ParsePat(h, c, p.1);
      var arrow :- Expect(c, pat.1, [Tokens.Arrow]);
      var body :- ArmBody(h, c, arrow.1);
      Arms(h, c, body.1, arms + [Arm(pat.0, body.0)])
  }

  /** An arm's body: a braced block, or an expression and `,`. */
  function ArmBody(h: Host, c: seq<u8>, s: PState): (r: Parsed<Expr>)
    requires Good(c, s)
    ensures Took(c, s, r)
    decreases Left(c, s), 16
  {
    hide Good, Left, Of, ExprSpan, Combine;
    var q :- Peek(c, s);
    if q.0.token == Tokens.OpenBrace then
      var b :- Braced(h, c, q.1);
      Ok((b.0.0, b.1))
    else
      var body :- ParseExpr(h, c, q.1);
      var comma :- Expect(c, body.1, [Tokens.Comma]);
      Ok((body.0, comma.1))
  }

  /** `for_expr`: a pattern, `in`, the iterable, and a braced body. */
  function ForExpr(h: Host, c: seq<u8>, s: PState): (r: Parsed<Expr>)
    requires Good(c, s)
    ensures Took(c, s, r)
    decreases Left(c, s), 12
  {
    hide Good, Left, Of, ExprSpan, Combine;
    var f :- Take(c, s, Tokens.For);
    var item :- ParsePat(h, c, f.1);
    var i :- Expect(c, item.1, [Tokens.In]);
    var iterable :- ParseExpr(h, c, i.1);
    var body :- Braced(h, c, iterable.1);
    Ok((For(Combine(f.0.span, body.0.2.span), item.0, iterable.0, body.0.0), body.1))
  }

  /** `while_expr`: the condition and a braced body. */
  function WhileExpr(h: Host, c: seq<u8>, s: PState): (r: Parsed<Expr>)
    requires Good(c, s)
    ensures Took(c, s, r)
    decreases Left(c, s), 12
  {
    hide Good, Left, Of, ExprSpan, Combine;
    var w :- Take(c, s, Tokens.While);
    var condition :- ParseExpr(h, c, w.1);
    var body :- Braced(h, c, condition.1);
    Ok((While(Combine(w.0.span, body.0.2.span), condition.0, body.0.0), body.1))
  }

  /** `pratt_expr`: an operand, then the operators that bind at least `min`. */
  function Pratt(h: Host, c: seq<u8>, s: PState, min: nat): (r: Parsed<Expr>)
    requires Good(c, s)
    ensures Took(c, s, r)
    decreases Left(c, s), 12
  {
    hide Good, Left, Of, ExprSpan, Combine;
    var left :- Operand(h, c, s);
    PrattLoop(h, c, left.1, min, left.0)
  }

  /** The operand `pratt_expr` starts with, chosen by the lookahead. */
  function Operand(h: Host, c: seq<u8>, s: PState): (r: Parsed<Expr>)
    requires Good(c, s)
    ensures Took(c, s, r)
    decreases Left(c, s), 11
  {
    hide Good, Left, Of, ExprSpan, Combine;
    var p :- Peek(c, s);
    var t := p.0.token;
    if t == Tokens.OpenParen then GroupOrLambda(h, c, p.1)
    else if t == Tokens.OpenBrace then MapExpr(h, c, p.1)
    else if t == Tokens.OpenBracket then ArrayExpr(h, c, p.1)
    else if t in {Tokens.Number, Tokens.Bool, Tokens.String, Tokens.Null} then
      var l :- ParseLit(h, c, p.1);
      Ok((Literal(l.0), l.1))
    else if t == Tokens.Ident then
      // `ident()` on an identifier lookahead takes that lexeme
      var q := Consume(c, p.1);
      Ok((Name(OmaAst.Ident(q.0.span, Content(q.0.span))), q.1))
    else Prefix(h, c, p.1)
  }

  /** The `loop` of `pratt_expr`: postfix and infix operators that bind at least `min`, folded into `left`. */
  function PrattLoop(h: Host, c: seq<u8>, s: PState, min: nat, left: Expr): (r: Parsed<Expr>)
    requires Good(c, s)
    ensures Kept(c, s, r)
    decreases Left(c, s), 12
  {
    hide Good, Left, Of, ExprSpan, Combine;
    var p :- Peek(c, s);
    var t := p.0.token;
    if t == Tokens.Semicolon || t == Tokens.End then Ok((left, p.1))
    else if PostfixPower(t).Some? then
      if PostfixPower(t).value < min then Ok((left, p.1))
      else
        var e :- PostfixStep(h, c, p.1, left);
        PrattLoop(h, c, e.1, min, e.0)
    else if InfixPower(t).Some? then
      if InfixPower(t).value.0 < min then Ok((left, p.1))
      else
        var e :- InfixStep(h, c, p.1, left);
        PrattLoop(h, c, e.1, min, e.0)
    else Ok((left, p.1))
  }

  /** A postfix operator applied to `left`: an index in brackets, or a call (or tag) with arguments in parentheses. */
  function PostfixStep(h: Host, c: seq<u8>, s: PState, left: Expr): (r: Parsed<Expr>)
    requires Good(c, s) && s.current.Some? && PostfixPower(s.current.value.token).Some?
    ensures Took(c, s, r)
    decreases Left(c, s), 1
  {
    hide Good, Left, Of, ExprSpan, Combine;
    var a := Consume(c, s);
    if a.0.token == Tokens.OpenBracket then
      var field :- ParseExpr(h, c, a.1);
      var close :- Expect(c, field.1, [Tokens.CloseBracket]);
      Ok((Access(AccessExpr(left, FieldExpr(field.0))), close.1))
    else
      // `(`, the only other postfix operator
      var arguments :- Arguments(h, c, a.1, []);
      var close := Consume(c, arguments.1);
      var e :- CallOrTag(h, left, arguments.0, close.0.span);
      Ok((e, close.1))
  }

  /**
   * An infix operator applied to `left`: `.` takes a field name, `=` a whole
   * expression as the value, any other a right operand parsed at the
   * operator's right power.
   */
  function InfixStep(h: Host, c: seq<u8>, s: PState, left: Expr): (r: Parsed<Expr>)
    requires Good(c, s) && s.current.Some? && InfixPower(s.current.value.token).Some?
    ensures Took(c, s, r)
    decreases Left(c, s), 1
  {
    hide Good, Left, Of, ExprSpan, Combine;
    var a := Consume(c, s);
    var t := a.0.token;
    if t == Tokens.Dot then
      var field :- ParseIdent(c, a.1);
      Ok((Access(AccessExpr(left, FieldIdent(field.0))), field.1))
    else if t == Tokens.Equal then
      var value :- ParseExpr(h, c, a.1);
      var e :- AssignOf(left, value.0);
      Ok((e, value.1))
    else
      var right :- Pratt(h, c, a.1, InfixPower(t).value.1);
      Ok((Binary(BinaryOpOf(t).value, left, right.0), right.1))
  }

  /** `prefix_expr`: `-` or `!` applied to an operand parsed at the prefix power. */
  function Prefix(h: Host, c: seq<u8>, s: PState): (r: Parsed<Expr>)
    requires Good(c, s)
    ensures Took(c, s, r)
    decreases Left(c, s), 10
  {
    hide Good, Left, Of, ExprSpan, Combine;
    var p :- Peek(c, s);
    var power := PrefixPower(p.0.token);
    if power.None? then Err(Unexpected(p.0, None))
    else
      var op := Consume(c, p.1);
      var operand :- Pratt(h, c, op.1, power.value);
      Ok((Unary(Combine(op.0.span, ExprSpan(operand.0)), UnaryOpOf(op.0.token).value, operand.0), operand.1))
  }

  /** The argument loop of a call: plain and spread arguments, separated by commas, up to `)`. */
  function Arguments(h: Host, c: seq<u8>, s: PState, arguments: seq<CallExprArgument>): (r: Parsed<seq<CallExprArgument>>)
    requires Good(c, s)
    ensures Kept(c, s, r)
    ensures r.Ok? ==> r.value.1.current.Some? && r.value.1.current.value.token == Tokens.CloseParen
    decreases Left(c, s), 18
  {
    hide Good, Left, Of, ExprSpan, Combine;
    var p :- Peek(c, s);
    if p.0.token == Tokens.CloseParen then Ok((arguments, p.1))
    else
      var argument :- if p.0.token == Tokens.DotDot then SpreadArgument(h, c, p.1) else PlainArgument(h, c, p.1);
      var q :- Peek(c, argument.1);
      if q.0.token == Tokens.Comma then
        var comma := Consume(c, q.1);
        Arguments(h, c, comma.1, arguments + [argument.0])
      else if q.0.token == Tokens.CloseParen then Arguments(h, c, q.1, arguments + [argument.0])
      else Err(Unexpected(q.0, Some([Tokens.Comma, Tokens.CloseParen])))
  }

  function SpreadArgument(h: Host, c: seq<u8>, s: PState): (r: Parsed<CallExprArgument>)
    requires Good(c, s)
    ensures Took(c, s, r)
    decreases Left(c, s), 16
  {
    hide Good, Left, Of, ExprSpan, Combine;
    var dots :- Take(c, s, Tokens.DotDot);
    var e :- ParseExpr(h, c, dots.1);
    Ok((ArgSpread(e.0), e.1))
  }

  function PlainArgument(h: Host, c: seq<u8>, s: PState): (r: Parsed<CallExprArgument>)
    requires Good(c, s)
    ensures Took(c, s, r)
    decreases Left(c, s), 16
  {
    hide Good, Left, Of, ExprSpan, Combine;
    var e :- ParseExpr(h, c, s);
    Ok((ArgExpr(e.0), e.1))
  }

  /**
   * `group_or_lambda_expr`: from the `(` to the end of the source, a fresh
   * parser tries a lambda head and another a group; a lambda is parsed if the
   * head parses or if neither does, a group otherwise.
   */
  function GroupOrLambda(h: Host, c: seq<u8>, s: PState): (r: Parsed<Expr>)
    requires Good(c, s)
    ensures Took(c, s, r)
    decreases Left(c, s), 10
  {
    hide Good, Left, Of, ExprSpan, Combine;
    var p :- Peek(c, s);
    if p.0.token != Tokens.OpenParen then Err(Tokens.Panic)
    else
      var rest := c[p.0.span.start..];
      var head := LambdaHead(h, rest, Init);
      var group := GroupExpr(h, rest, Init);
      if head.Ok? || group.Err? then LambdaExpr(h, c, p.1) else GroupExpr(h, c, p.1)
  }

  /** `group_expr`: an expression in parentheses. */
  function GroupExpr(h: Host, c: seq<u8>, s: PState): (r: Parsed<Expr>)
    requires Good(c, s)
    ensures Took(c, s, r)
    decreases Left(c, s), 6
  {
    hide Good, Left, Of, ExprSpan, Combine;
    var open :- Take(c, s, Tokens.OpenParen);
    var e :- ParseExpr(h, c, open.1);
    var close :- Expect(c, e.1, [Tokens.CloseParen]);
    Ok((e.0, close.1))
  }

  /** `lambda_expr`: the head, then the body. */
  function LambdaExpr(h: Host, c: seq<u8>, s: PState): (r: Parsed<Expr>)
    requires Good(c, s)
    ensures Took(c, s, r)
    ensures r.Ok? ==> r.value.0.Lambda?
    decreases Left(c, s), 8
  {
    hide Good, Left, Of, ExprSpan, Combine;
    var head :- LambdaHead(h, c, s);
    var (parameters, headSpan) := head.0;
    var body :- LambdaBody(h, c, head.1);
    Ok((Lambda(Combine(headSpan, body.0.1), parameters, body.0.0), body.1))
  }

  /** A lambda's body and its span: a braced block spans its braces, an expression its own span. */
  function LambdaBody(h: Host, c: seq<u8>, s: PState): (r: Parsed<(Expr, Span)>)
    requires Good(c, s)
    ensures Took(c, s, r)
    decreases Left(c, s), 16
  {
    hide Good, Left, Of, ExprSpan, Combine;
    var p :- Peek(c, s);
    if p.0.token == Tokens.OpenBrace then
      var b :- Braced(h, c, p.1);
      Ok(((b.0.0, Combine(b.0.1.span, b.0.2.span)), b.1))
    else
      var body :- ParseExpr(h, c, p.1);
      Ok(((body.0, ExprSpan(body.0)), body.1))
  }

  /** `lambda_expr_head`: parameters in parentheses, then `->`; the span runs from `(` to `->`. */
  function LambdaHead(h: Host, c: seq<u8>, s: PState): (r: Parsed<(seq<LambdaExprParameter>, Span)>)
    requires Good(c, s)
    ensures Took(c, s, r)
    decreases Left(c, s), 6
  {
    hide Good, Left, Of, ExprSpan, Combine;
    var open :- Take(c, s, Tokens.OpenParen);
    var parameters :- Parameters(h, c, open.1, []);
    var close := Consume(c, parameters.1);
    var arrow :- Expect(c, close.1, [Tokens.Arrow]);
    Ok(((parameters.0, Combine(open.0.span, arrow.0.span)), arrow.1))
  }

  /** The parameter loop of a lambda head: patterns and `..name` spreads, separated by commas, up to `)`. */
  function Parameters(h: Host, c: seq<u8>, s: PState, parameters: seq<LambdaExprParameter>): (r: Parsed<seq<LambdaExprParameter>>)
    requires Good(c, s)
    ensures Kept(c, s, r)
    ensures r.Ok? ==> r.value.1.current.Some? && r.value.1.current.value.token == Tokens.CloseParen
    decreases Left(c, s), 20
  {
    hide Good, Left, Of, ExprSpan, Combine;
    var p :- Peek(c, s);
    if p.0.token == Tokens.CloseParen then Ok((parameters, p.1))
    else
      var parameter :- if p.0.token == Tokens.DotDot then SpreadParameter(c, p.1) else PatParameter(h, c, p.1);
      var q :- Peek(c, parameter.1);
      if q.0.token == Tokens.Comma then
        var comma := Consume(c, q.1);
        Parameters(h, c, comma.1, parameters + [parameter.0])
      else if q.0.token == Tokens.CloseParen then Parameters(h, c, q.1, parameters + [parameter.0])
      else Err(Unexpected(q.0, Some([Tokens.Comma, Tokens.CloseParen])))
  }

  function SpreadParameter(c: seq<u8>, s: PState): (r: Parsed<LambdaExprParameter>)
    requires Good(c, s)
    ensures Took(c, s, r)
  {
    var dots :- Take(c, s, Tokens.DotDot);
    var i :- ParseIdent(c, dots.1);
    Ok((ParamSpread(i.0), i.1))
  }

  function PatParameter(h: Host, c: seq<u8>, s: PState): (r: Parsed<LambdaExprParameter>)
    requires Good(c, s)
    ensures Took(c, s, r)
    decreases Left(c, s), 18
  {
    hide Good, Left, Of, ExprSpan, Combine;
    var p :- ParsePat(h, c, s);
    Ok((ParamPat(p.0), p.1))
  }

  /** `map_expr`: pairs in braces. */
  function MapExpr(h: Host, c: seq<u8>, s: PState): (r: Parsed<Expr>)
    requires Good(c, s)
    ensures Took(c, s, r)
    decreases Left(c, s), 10
  {
    hide Good, Left, Of, ExprSpan, Combine;
    var open :- Take(c, s, Tokens.OpenBrace);
    var pairs :- MapPairs(h, c, open.1, []);
    var close := Consume(c, pairs.1);
    Ok((Map(Combine(open.0.span, close.0.span), pairs.0), close.1))
  }

  /**
   * The pair loop of `map_expr`: `..e`, `[key]: value`, `name: value` or a
   * bare `name` (short for `name: name`), separated by commas, up to `}`.
   */
  function MapPairs(h: Host, c: seq<u8>, s: PState, pairs: seq<MapExprPair>): (r: Parsed<seq<MapExprPair>>)
    requires Good(c, s)
    ensures Kept(c, s, r)
    ensures r.Ok? ==> r.value.1.current.Some? && r.value.1.current.value.token == Tokens.CloseBrace
    decreases Left(c, s), 10
  {
    hide Good, Left, Of, ExprSpan, Combine;
    var p :- Peek(c, s);
    if p.0.token == Tokens.CloseBrace then Ok((pairs, p.1))
    else
      var pair :- MapPair(h, c, p.1);
      var q :- Peek(c, pair.1);
      if q.0.token == Tokens.Comma then
        var comma := Consume(c, q.1);
        MapPairs(h, c, comma.1, pairs + [pair.0])
      else if q.0.token == Tokens.CloseBrace then MapPairs(h, c, q.1, pairs + [pair.0])
      else Err(Unexpected(q.0, Some([Tokens.Comma, Tokens.CloseBrace, Tokens.Colon])))
  }

  function MapPair(h: Host, c: seq<u8>, s: PState): (r: Parsed<MapExprPair>)
    requires Good(c, s) && s.current.Some?
    ensures Took(c, s, r)
    decreases Left(c, s), 8
  {
    hide Good, Left, Of, ExprSpan, Combine;
    var t := s.current.value.token;
    if t == Tokens.DotDot then
      var dots := Consume(c, s);
      var e :- ParseExpr(h, c, dots.1);
      Ok((PairSpread(e.0), e.1))
    else if t == Tokens.OpenBracket then
      var open := Consume(c, s);
      var key :- ParseExpr(h, c, open.1);
      var close :- Expect(c, key.1, [Tokens.CloseBracket]);
      var colon :- Expect(c, close.1, [Tokens.Colon]);
      var value :- ParseExpr(h, c, colon.1);
      Ok((PairExpr(key.0, value.0), value.1))
    else
      var field :- ParseIdent(c, s);
      var q :- Peek(c, field.1);
      if q.0.token == Tokens.Colon then
        var colon := Consume(c, q.1);
        var value :- ParseExpr(h, c, colon.1);
        Ok((PairIdent(field.0, value.0), value.1))
      else Ok((PairIdent(field.0, Name(field.0)), q.1))
  }

  /** `array_expr`: items in brackets. */
  function ArrayExpr(h: Host, c: seq<u8>, s: PState): (r: Parsed<Expr>)
    requires Good(c, s)
    ensures Took(c, s, r)
    decreases Left(c, s), 10
  {
    hide Good, Left, Of, ExprSpan, Combine;
    var open :- Take(c, s, Tokens.OpenBracket);
    var items :- Items(h, c, open.1, []);
    var close := Consume(c, items.1);
    Ok((Array(Combine(open.0.span, close.0.span), items.0), close.1))
  }

  /** The item loop of `array_expr`: plain and spread items, separated by commas, up to `]`. */
  function Items(h: Host, c: seq<u8>, s: PState, items: seq<ArrayExprItem>): (r: Parsed<seq<ArrayExprItem>>)
    requires Good(c, s)
    ensures Kept(c, s, r)
    ensures r.Ok? ==> r.value.1.current.Some? && r.value.1.current.value.token == Tokens.CloseBracket
    decreases Left(c, s), 18
  {
    hide Good, Left, Of, ExprSpan, Combine;
    var p :- Peek(c, s);
    if p.0.token == Tokens.CloseBracket then Ok((items, p.1))
    else
      var item :- if p.0.token == Tokens.DotDot then SpreadItem(h, c, p.1) else PlainItem(h, c, p.1);
      var q :- Peek(c, item.1);
      if q.0.token == Tokens.Comma then
        var comma := Consume(c, q.1);
        Items(h, c, comma.1, items + [item.0])
      else if q.0.token == Tokens.CloseBracket then Items(h, c, q.1, items + [item.0])
      else Err(Unexpected(q.0, Some([Tokens.Comma, Tokens.CloseBracket])))
  }

  function SpreadItem(h: Host, c: seq<u8>, s: PState): (r: Parsed<ArrayExprItem>)
    requires Good(c, s)
    ensures Took(c, s, r)
    decreases Left(c, s), 16
  {
    hide Good, Left, Of, ExprSpan, Combine;
    var dots :- Take(c, s, Tokens.DotDot);
    var e :- ParseExpr(h, c, dots.1);
    Ok((ItemSpread(e.0), e.1))
  }

  function PlainItem(h: Host, c: seq<u8>, s: PState): (r: Parsed<ArrayExprItem>)
    requires Good(c, s)
    ensures Took(c, s, r)
    decreases Left(c, s), 16
  {
    hide Good, Left, Of, ExprSpan, Combine;
    var e :- ParseExpr(h, c, s);
    Ok((ItemExpr(e.0), e.1))
  }

  /** `pat`: an expression, converted to a pattern. */
  function ParsePat(h: Host, c: seq<u8>, s: PState): (r: Parsed<Pat>)
    requires Good(c, s)
    ensures Took(c, s, r)
    decreases Left(c, s), 16
  {
    hide Good, Left, Of, ExprSpan, Combine;
    var e :- ParseExpr(h, c, s);
    var p :- PatFrom(e.0);
    Ok((p, e.1))
  }
}
