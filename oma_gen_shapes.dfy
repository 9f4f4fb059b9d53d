/**
 * The shape of what blocks and lambdas lower to: a block is its expressions
 * in order with a `Clu` after each but the last, a trailing `;` adds
 * `Clu Nul`; a lambda's parameters take the slots after `__lambda` in order,
 * and a lowered lambda is one `Lmd` instruction of the enclosing function.
 */
module OmaGenShapes {
  import opened Wrappers
  import opened Bytes
  import opened OmaAst
  import opened OmaContext
  import opened OmaGenSpec
  import opened OmaGenFrames
  import opened OmaGenGrowth
  import OmaGenJumps
  import OmaLocals
  import Tokens
  import O = Opcodes
  import ShuChunk
  import CC = CompilerChunk

  // Blocks

  /** Every expression of `init` in turn, each followed by `Clu`: what precedes a block's last expression. */
  function Leading(reg: Registry, c: Context, init: seq<Expr>): Outcome
    decreases |init|
  {
    if init == [] then Ok(c)
    else
      var d :- GenExpr(reg, c, init[0]);
      Leading(reg, Bare(d, O.Clu), init[1..])
  }

  /** A non-empty block is its leading expressions, then its last one, then `Clu Nul` when it ends in `;`. */
  lemma {:induction false} BlockSplits(reg: Registry, c: Context, exprs: seq<Expr>, hasSemi: bool)
    requires exprs != []
    ensures var lead := Leading(reg, c, exprs[..|exprs| - 1]);
      var r := GenBlockExprs(reg, c, exprs, hasSemi);
      (lead.Err? ==> r == Err(lead.error)) &&
      (lead.Ok? ==> var d := GenExpr(reg, lead.value, exprs[|exprs| - 1]);
        (d.Err? ==> r == Err(d.error)) &&
        (d.Ok? ==> r == Ok(if hasSemi then Bare(Bare(d.value, O.Clu), O.Nul) else d.value)))
    decreases |exprs|
  {
    hide GenExpr, Bare;
    var init := exprs[..|exprs| - 1];
    if |exprs| > 1 {
      var d := GenExpr(reg, c, exprs[0]);
      assert init[0] == exprs[0];
      if d.Ok? {
        var rest := exprs[1..];
        assert rest[..|rest| - 1] == init[1..];
        assert rest[|rest| - 1] == exprs[|exprs| - 1];
        BlockSplits(reg, Bare(d.value, O.Clu), rest, hasSemi);
      }
    }
  }

  /** A block ending in `;` ends in `Clu Nul`: its last value is dropped and `nil` is the block's value. */
  lemma BlockSemiEnds(reg: Registry, c: Context, exprs: seq<Expr>)
    requires exprs != []
    ensures var r := GenBlockExprs(reg, c, exprs, true);
      r.Ok? ==> var code := r.value.chunk.code;
        |code| >= 2 && ShuChunk.OpcodeOf(code[|code| - 2]) == Some(O.Clu) && ShuChunk.OpcodeOf(code[|code| - 1]) == Some(O.Nul)
  {
    hide GenExpr, Bare, Leading, GenBlockExprs;
    BlockSplits(reg, c, exprs, true);
    var lead := Leading(reg, c, exprs[..|exprs| - 1]);
    if lead.Ok? {
      var d := GenExpr(reg, lead.value, exprs[|exprs| - 1]);
      if d.Ok? {
        var d1 := Bare(d.value, O.Clu);
        OmaGenJumps.BareLast(d.value, O.Clu);
        OmaGenJumps.BareLast(d1, O.Nul);
        BareMoves(d1, O.Nul);
      }
    }
  }

  /** An empty block is `nil`. */
  lemma EmptyBlockIsNil(reg: Registry, c: Context, span: Source.Span, hasSemi: bool)
    ensures var r := GenExpr(reg, c, Block(span, [], hasSemi));
      r.Ok? && r.value.locals == c.locals && |r.value.chunk.code| == |c.chunk.code| + 1 &&
      ShuChunk.OpcodeOf(r.value.chunk.code[|c.chunk.code|]) == Some(O.Nul)
  {
    OmaGenJumps.BareLast(c, O.Nul);
  }

  // Lambdas

  /** Every parameter is a plain identifier pattern. */
  predicate Plain(parameters: seq<LambdaExprParameter>) {
    forall i :: 0 <= i < |parameters| ==> parameters[i].ParamPat? && parameters[i].pat.IdentPat?
  }

  /**
   * The parameters bind the next slots in order, at the current depth; any
   * other parameter form is not supported and panics.
   */
  lemma {:induction false} ParamsBind(c: Context, parameters: seq<LambdaExprParameter>)
    ensures var r := AddParams(c, parameters);
      (r.Ok? <==> Plain(parameters)) &&
      (r.Err? ==> r.error == Tokens.Panic) &&
      (r.Ok? ==> (|r.value.locals| == |c.locals| + |parameters| && r.value.locals[..|c.locals|] == c.locals &&
        r.value.localDepth == c.localDepth && r.value.chunk == c.chunk && r.value.parent == c.parent &&
        forall i :: 0 <= i < |parameters| ==> r.value.locals[|c.locals| + i] == Local(parameters[i].pat.ident, c.localDepth)))
    decreases parameters
  {
    if parameters != [] {
      match parameters[0] {
        case ParamPat(IdentPat(ident)) =>
          var d := AddLocal(c, ident).0;
          ParamsBind(d, parameters[1..]);
          var r := AddParams(d, parameters[1..]);
          assert Plain(parameters) <==> Plain(parameters[1..]) by {
            if Plain(parameters[1..]) {
              forall i | 0 <= i < |parameters| ensures parameters[i].ParamPat? && parameters[i].pat.IdentPat? {
                if i > 0 {
                  assert parameters[i] == parameters[1..][i - 1];
                }
              }
            }
            if Plain(parameters) {
              forall i | 0 <= i < |parameters[1..]| ensures parameters[1..][i].ParamPat? && parameters[1..][i].pat.IdentPat? {
                assert parameters[1..][i] == parameters[i + 1];
              }
            }
          }
          if r.Ok? {
            assert r.value.locals[..|c.locals|] == c.locals by {
              assert r.value.locals[..|d.locals|][..|c.locals|] == r.value.locals[..|c.locals|];
            }
            forall i | 0 <= i < |parameters| ensures r.value.locals[|c.locals| + i] == Local(parameters[i].pat.ident, c.localDepth) {
              if i == 0 {
                assert r.value.locals[|c.locals|] == r.value.locals[..|d.locals|][|c.locals|];
              } else {
                assert parameters[i] == parameters[1..][i - 1];
              }
            }
          }
        case _ =>
      }
    }
  }

  /**
   * A lambda whose locals can be counted, whose parameters are plain names
   * and whose body lowers, becomes one `Lmd` instruction of the enclosing
   * function: a function of arity |parameters| whose code ends in `Ret`,
   * with the enclosing function's slots and depth untouched.
   */
  lemma LambdaEmits(reg: Registry, c: Context, e: Expr)
    requires e.Lambda?
    ensures var r := GenLambda(reg, c, e);
      (!OmaLocals.Countable(e.body) || !Plain(e.parameters) ==> r == Err(Tokens.Panic)) &&
      (r.Ok? ==> (r.value.locals == c.locals && r.value.localDepth == c.localDepth &&
        exists fn: ShuChunk.Function ::
          fn.arity == |e.parameters| && fn.locals == OmaLocals.Use(e.body).peak &&
          |fn.chunk.code| > 0 && ShuChunk.OpcodeOf(fn.chunk.code[|fn.chunk.code| - 1]) == Some(O.Ret) &&
          r.value.chunk == CC.Emitted(c.chunk, CC.Op(O.Lmd, Some(CC.Function(fn))))))
  {
    hide GenExpr, AddParams, Bare, Moves;
    var outer := WithParent(Some(c));
    ParamsBind(outer, e.parameters);
    if OmaLocals.Countable(e.body) {
      var inner := AddParams(outer, e.parameters);
      if inner.Ok? {
        ExprGrows(reg, inner.value, e.body);
        var d := GenExpr(reg, inner.value, e.body);
        if d.Ok? {
          var done := Bare(d.value, O.Ret);
          OmaGenJumps.BareLast(d.value, O.Ret);
          BareMoves(d.value, O.Ret);
          FramesOfReach(inner.value, d.value);
          assert done.parent == d.value.parent;
          var p := done.parent.value;
          assert p.chunk == c.chunk && p.locals == c.locals && p.localDepth == c.localDepth;
          var fn := ShuChunk.Function(|e.parameters|, done.chunk, OmaLocals.Use(e.body).peak, done.upvalues);
          assert GenLambda(reg, c, e) == Ok(Emit(p, CC.Op(O.Lmd, Some(CC.Function(fn)))).0);
        }
      }
    }
  }

  /** What reaching a context keeps of its enclosing function. */
  lemma FramesOfReach(c: Context, d: Context)
    requires Reaches(c, d) && c.parent.Some?
    ensures d.parent.Some? && d.parent.value.chunk == c.parent.value.chunk &&
      d.parent.value.locals == c.parent.value.locals && d.parent.value.localDepth == c.parent.value.localDepth
  {
    assert SameFrames(c.parent.value, d.parent.value);
  }
}
