/**
 * Every lowering routine only appends to the code of the function it works
 * on (its jumps are patched at or after the point where it started) and
 * gives back the enclosing functions and the scope depth as it found them.
 */
module OmaGenGrowth {
  import opened Wrappers
  import opened OmaAst
  import opened OmaContext
  import opened OmaGenSpec
  import opened OmaGenFrames
  import O = Opcodes
  import CC = CompilerChunk

  /** A patch that keeps c0's code prefix, the function and the depth keeps reaching from c0. */
  lemma ReachesPatched(c0: Context, c: Context, d: Context)
    requires Reaches(c0, c) && Extends(c0, d) && d.parent == c.parent && d.localDepth == c.localDepth
    ensures Reaches(c0, d)
  {
  }

  lemma ReachesLen(c: Context, d: Context)
    requires Reaches(c, d)
    ensures |c.chunk.code| <= |d.chunk.code|
  {
  }

  lemma SameCode(c: Context, d: Context)
    requires c.chunk == d.chunk
    ensures Extends(c, d)
  {
  }

  /** The parameters only add slots. */
  lemma {:induction false} AddParamsMoves(c: Context, parameters: seq<LambdaExprParameter>)
    ensures var r := AddParams(c, parameters); r.Ok? ==> Moves(c, r.value)
    decreases parameters
  {
    hide Moves, AddLocal;
    if parameters == [] {
      MovesRefl(c);
    } else {
      match parameters[0] {
        case ParamPat(IdentPat(ident)) =>
          var d := AddLocal(c, ident).0;
          AddLocalMoves(c, ident);
          AddParamsMoves(d, parameters[1..]);
          var r := AddParams(d, parameters[1..]);
          if r.Ok? {
            MovesTrans(c, d, r.value);
          }
        case _ =>
      }
    }
  }

  /**
   * One case arm: its pattern runs in a new scope and its body reaches from
   * there; after the end jump the depth is one more than before the arm, so
   * the scope can be closed, and closing it reaches from where the arms began.
   */
  lemma ArmStep(c0: Context, d1: Context, p0: Context, d3: Context, d4: Context)
    requires Reaches(c0, d1) && Moves(EnterScope(d1), p0) && Reaches(p0, d3) && Moves(d3, d4)
    ensures d4.localDepth == d1.localDepth + 1 && Reaches(c0, ExitScope(d4).0)
    ensures |c0.chunk.code| <= |d3.chunk.code|
  {
    var x := ExitScope(d4).0;
    assert SameFrames(d1, x);
    SameFramesTrans(c0, d1, x);
  }

  lemma LaterAfter(c0: Context, s: Context, jumps: seq<nat>)
    requires LaterJumps(s, [], jumps) && |c0.chunk.code| <= |s.chunk.code|
    ensures After(c0, jumps)
  {
  }

  lemma {:induction false} ExprGrows(reg: Registry, c: Context, e: Expr)
    ensures Grows(c, GenExpr(reg, c, e))
    decreases e, 1
  {
    hide Extends, SameFrames, Moves, Bare, WithString, WithUsize, GenLit, GenIdent, GenMapPairs, GenArrayItems,
      GenLambda, GenBlockExprs, GenBinary, StorePat, GenAssign, GenCall, GenAccess, GenIf, GenCase, GenWhile;
    match e {
      case Literal(lit) =>
        LitMoves(c, lit);
        MovesFrames(c, GenLit(c, lit));
      case Name(ident) => IdentGrows(reg, c, ident);
      case Map(_, pairs) =>
        BareMoves(c, O.Map);
        MovesFrames(c, Bare(c, O.Map));
        MapPairsGrows(reg, Bare(c, O.Map), pairs);
        GrowsAfter(c, Bare(c, O.Map), GenMapPairs(reg, Bare(c, O.Map), pairs));
      case Array(_, items) =>
        BareMoves(c, O.Arr);
        MovesFrames(c, Bare(c, O.Arr));
        ArrayItemsGrows(reg, Bare(c, O.Arr), items);
        GrowsAfter(c, Bare(c, O.Arr), GenArrayItems(reg, Bare(c, O.Arr), items));
      case Lambda(_, _, _) => LambdaGrows(reg, c, e);
      case Tag(_, tag, inner) =>
        ExprGrows(reg, c, inner);
        var d := GenExpr(reg, c, inner);
        if d.Ok? {
          var d1 := WithString(d.value, O.Str, tag.content);
          WithStringMoves(d.value, O.Str, tag.content);
          BareMoves(d1, O.Tag);
          ReachesMoves(c, d.value, d1);
          ReachesMoves(c, d1, Bare(d1, O.Tag));
        }
      case Block(_, exprs, hasSemi) =>
        if exprs == [] {
          BareMoves(c, O.Nul);
          MovesFrames(c, Bare(c, O.Nul));
        } else {
          BlockExprsGrows(reg, c, exprs, hasSemi);
        }
      case Binary(_, _, _) => BinaryGrows(reg, c, e);
      case Unary(_, uop, operand) =>
        ExprGrows(reg, c, operand);
        var d := GenExpr(reg, c, operand);
        if d.Ok? {
          var code := if uop == Negate then O.Neg else O.Not;
          BareMoves(d.value, code);
          ReachesMoves(c, d.value, Bare(d.value, code));
        }
      case Bind(bindee, value) =>
        ExprGrows(reg, c, value);
        var d := GenExpr(reg, c, value);
        if d.Ok? {
          StorePatGrows(d.value, bindee, true);
          var r := StorePat(d.value, bindee, true);
          if r.Ok? {
            ReachesMoves(c, d.value, r.value);
          }
        }
      case Assign(_, _) => AssignGrows(reg, c, e);
      case Call(_, _) => CallGrows(reg, c, e);
      case Access(access) => AccessGrows(reg, c, access);
      case If(_, _, _, _) => IfGrows(reg, c, e);
      case Case(_, _, _) => CaseGrows(reg, c, e);
      case For(_, _, _, _) =>
      case While(_, _, _) => WhileGrows(reg, c, e);
    }
  }

  lemma {:induction false} MapPairsGrows(reg: Registry, c: Context, pairs: seq<MapExprPair>)
    ensures Grows(c, GenMapPairs(reg, c, pairs))
    decreases pairs, 0
  {
    hide Extends, SameFrames, Moves, Bare, WithString, GenExpr;
    if pairs == [] {
      MovesRefl(c);
      MovesFrames(c, c);
    } else {
      var pair := pairs[0];
      assert pair in pairs;
      match pair {
        case PairIdent(key, value) =>
          assert value < pair;
          var c1 := Bare(c, O.Dup);
          BareMoves(c, O.Dup);
          MovesFrames(c, c1);
          ExprGrows(reg, c1, value);
          var d := GenExpr(reg, c1, value);
          if d.Ok? {
            ReachesTrans(c, c1, d.value);
            var d1 := WithString(d.value, O.Str, key.content);
            var d2 := Bare(d1, O.Set);
            var d3 := Bare(d2, O.Pop);
            WithStringMoves(d.value, O.Str, key.content);
            BareMoves(d1, O.Set);
            BareMoves(d2, O.Pop);
            ReachesMoves(c, d.value, d1);
            ReachesMoves(c, d1, d2);
            ReachesMoves(c, d2, d3);
            MapPairsGrows(reg, d3, pairs[1..]);
            GrowsAfter(c, d3, GenMapPairs(reg, d3, pairs[1..]));
          }
        case _ =>
      }
    }
  }

  lemma {:induction false} ArrayItemsGrows(reg: Registry, c: Context, items: seq<ArrayExprItem>)
    ensures Grows(c, GenArrayItems(reg, c, items))
    decreases items, 0
  {
    hide Extends, SameFrames, Moves, Bare, GenExpr;
    if items == [] {
      MovesRefl(c);
      MovesFrames(c, c);
    } else {
      var item := items[0];
      assert item in items;
      match item {
        case ItemExpr(value) =>
          assert value < item;
          var c1 := Bare(c, O.Dup);
          BareMoves(c, O.Dup);
          MovesFrames(c, c1);
          ExprGrows(reg, c1, value);
          var d := GenExpr(reg, c1, value);
          if d.Ok? {
            ReachesTrans(c, c1, d.value);
            var d1 := Bare(d.value, O.Apn);
            var d2 := Bare(d1, O.Pop);
            BareMoves(d.value, O.Apn);
            BareMoves(d1, O.Pop);
            ReachesMoves(c, d.value, d1);
            ReachesMoves(c, d1, d2);
            ArrayItemsGrows(reg, d2, items[1..]);
            GrowsAfter(c, d2, GenArrayItems(reg, d2, items[1..]));
          }
        case _ =>
      }
    }
  }

  /**
   * A lambda's body leaves the enclosing function as it was, so the `Lmd`
   * constant lands on the code of the context the lambda started in.
   */
  lemma {:induction false} LambdaGrows(reg: Registry, c: Context, e: Expr)
    requires e.Lambda?
    ensures Grows(c, GenLambda(reg, c, e))
    ensures var r := GenLambda(reg, c, e); r.Ok? ==> r.value.locals == c.locals
    decreases e, 0
  {
    hide Extends, Bare, Emit, GenExpr, AddParams, WithParent;
    if OmaLocals.Countable(e.body) {
      var outer := WithParent(Some(c));
      AddParamsMoves(outer, e.parameters);
      var inner := AddParams(outer, e.parameters);
      if inner.Ok? {
        ExprGrows(reg, inner.value, e.body);
        var d := GenExpr(reg, inner.value, e.body);
        if d.Ok? {
          var done := Bare(d.value, O.Ret);
          BareMoves(d.value, O.Ret);
          assert done.parent == d.value.parent;
          assert inner.value.parent == Some(c);
          var p := done.parent.value;
          assert p.chunk == c.chunk && p.locals == c.locals && SameFrames(c, p);
          var fn := ShuChunk.Function(|e.parameters|, done.chunk, OmaLocals.Use(e.body).peak, done.upvalues);
          EmitMoves(p, CC.Op(O.Lmd, Some(CC.Function(fn))));
          SameCode(c, p);
          ReachesMoves(c, p, Emit(p, CC.Op(O.Lmd, Some(CC.Function(fn)))).0);
        }
      }
    }
  }

  lemma {:induction false} BlockExprsGrows(reg: Registry, c: Context, exprs: seq<Expr>, hasSemi: bool)
    requires exprs != []
    ensures Grows(c, GenBlockExprs(reg, c, exprs, hasSemi))
    decreases exprs, 0
  {
    hide Extends, SameFrames, Moves, Bare, GenExpr;
    assert exprs[0] in exprs;
    ExprGrows(reg, c, exprs[0]);
    var d := GenExpr(reg, c, exprs[0]);
    if d.Ok? {
      var d1 := Bare(d.value, O.Clu);
      BareMoves(d.value, O.Clu);
      ReachesMoves(c, d.value, d1);
      if |exprs| == 1 {
        if hasSemi {
          BareMoves(d1, O.Nul);
          ReachesMoves(c, d1, Bare(d1, O.Nul));
        }
      } else {
        BlockExprsGrows(reg, d1, exprs[1..], hasSemi);
        GrowsAfter(c, d1, GenBlockExprs(reg, d1, exprs[1..], hasSemi));
      }
    }
  }

  lemma {:induction false} BinaryGrows(reg: Registry, c: Context, e: Expr)
    requires e.Binary?
    ensures Grows(c, GenBinary(reg, c, e))
    decreases e, 0
  {
    hide Extends, SameFrames, Moves, Bare, GenExpr;
    ExprGrows(reg, c, e.left);
    var l := GenExpr(reg, c, e.left);
    if l.Ok? {
      ExprGrows(reg, l.value, e.right);
      var r := GenExpr(reg, l.value, e.right);
      if r.Ok? {
        ReachesTrans(c, l.value, r.value);
        var code := BinaryCode(e.op);
        if code.Some? {
          BareMoves(r.value, code.value);
          ReachesMoves(c, r.value, Bare(r.value, code.value));
        }
      }
    }
  }

  lemma {:induction false} AssignGrows(reg: Registry, c: Context, e: Expr)
    requires e.Assign?
    ensures Grows(c, GenAssign(reg, c, e))
    decreases e, 0
  {
    hide Extends, SameFrames, Moves, Bare, GenExpr, StorePat, GenField;
    match e.assignee {
      case AssigneePat(pat) =>
        ExprGrows(reg, c, e.value);
        var d := GenExpr(reg, c, e.value);
        if d.Ok? {
          StorePatGrows(d.value, pat, false);
          var r := StorePat(d.value, pat, false);
          if r.Ok? {
            ReachesMoves(c, d.value, r.value);
          }
        }
      case AssigneeAccess(access) =>
        ExprGrows(reg, c, access.receiver);
        var d1 := GenExpr(reg, c, access.receiver);
        if d1.Ok? {
          ExprGrows(reg, d1.value, e.value);
          var d2 := GenExpr(reg, d1.value, e.value);
          if d2.Ok? {
            ReachesTrans(c, d1.value, d2.value);
            FieldGrows(reg, d2.value, access.field);
            var d3 := GenField(reg, d2.value, access.field);
            if d3.Ok? {
              ReachesTrans(c, d2.value, d3.value);
              BareMoves(d3.value, O.Set);
              ReachesMoves(c, d3.value, Bare(d3.value, O.Set));
            }
          }
        }
    }
  }

  lemma {:induction false} CallGrows(reg: Registry, c: Context, e: Expr)
    requires e.Call?
    ensures Grows(c, GenCall(reg, c, e))
    decreases e, 0
  {
    hide Extends, SameFrames, Moves, WithUsize, GenExpr, GenArgs;
    ExprGrows(reg, c, e.receiver);
    var d1 := GenExpr(reg, c, e.receiver);
    if d1.Ok? {
      ArgsGrows(reg, d1.value, e.arguments);
      var d2 := GenArgs(reg, d1.value, e.arguments);
      if d2.Ok? {
        ReachesTrans(c, d1.value, d2.value);
        WithUsizeMoves(d2.value, O.Cal, |e.arguments|);
        ReachesMoves(c, d2.value, WithUsize(d2.value, O.Cal, |e.arguments|));
      }
    }
  }

  lemma {:induction false} ArgsGrows(reg: Registry, c: Context, arguments: seq<CallExprArgument>)
    ensures Grows(c, GenArgs(reg, c, arguments))
    decreases arguments, 0
  {
    hide Extends, SameFrames, Moves, GenExpr;
    if arguments == [] {
      MovesRefl(c);
      MovesFrames(c, c);
    } else {
      var argument := arguments[0];
      assert argument in arguments;
      match argument {
        case ArgExpr(x) =>
          assert x < argument;
          ExprGrows(reg, c, x);
          var d := GenExpr(reg, c, x);
          if d.Ok? {
            ArgsGrows(reg, d.value, arguments[1..]);
            GrowsAfter(c, d.value, GenArgs(reg, d.value, arguments[1..]));
          }
        case ArgSpread(_) =>
      }
    }
  }

  lemma {:induction false} AccessGrows(reg: Registry, c: Context, access: AccessExpr)
    ensures Grows(c, GenAccess(reg, c, access))
    decreases access, 0
  {
    hide Extends, SameFrames, Moves, Bare, GenExpr, GenField;
    ExprGrows(reg, c, access.receiver);
    var d1 := GenExpr(reg, c, access.receiver);
    if d1.Ok? {
      FieldGrows(reg, d1.value, access.field);
      var d2 := GenField(reg, d1.value, access.field);
      if d2.Ok? {
        ReachesTrans(c, d1.value, d2.value);
        BareMoves(d2.value, O.Get);
        ReachesMoves(c, d2.value, Bare(d2.value, O.Get));
      }
    }
  }

  lemma {:induction false} FieldGrows(reg: Registry, c: Context, field: AccessField)
    ensures Grows(c, GenField(reg, c, field))
    decreases field, 0
  {
    hide Extends, SameFrames, Moves, WithString, GenExpr;
    match field {
      case FieldExpr(x) => ExprGrows(reg, c, x);
      case FieldIdent(ident) =>
        WithStringMoves(c, O.Str, ident.content);
        MovesFrames(c, WithString(c, O.Str, ident.content));
    }
  }

  lemma {:induction false} IfGrows(reg: Registry, c: Context, e: Expr)
    requires e.If?
    ensures Grows(c, GenIf(reg, c, e))
    decreases e, 0
  {
    hide Extends, SameFrames, Moves, Bare, Placeholder, Emit, PatchAt, GenExpr;
    ExprGrows(reg, c, e.condition);
    var d1 := GenExpr(reg, c, e.condition);
    if d1.Ok? {
      var (d2, jumpIf) := Placeholder(d1.value, O.Jif);
      PlaceholderMoves(d1.value, O.Jif);
      ReachesMoves(c, d1.value, d2);
      ExprGrows(reg, d2, e.body);
      var d3 := GenExpr(reg, d2, e.body);
      if d3.Ok? {
        ReachesTrans(c, d2, d3.value);
        var (d4, jump) := Emit(d3.value, CC.Op(O.Jmp, None));
        EmitMoves(d3.value, CC.Op(O.Jmp, None));
        ReachesMoves(c, d3.value, d4);
        MovesLen(d1.value, d2);
        ReachesLen(c, d1.value);
        PatchAtKeeps(c, d4, jumpIf, OmaContext.Len(d4));
        var d5 := PatchAt(d4, jumpIf, OmaContext.Len(d4));
        if d5.Ok? {
          ReachesPatched(c, d4, d5.value);
          var d6 := if e.otherwise.Some? then GenExpr(reg, d5.value, e.otherwise.value) else Ok(Bare(d5.value, O.Nul));
          if e.otherwise.Some? {
            ExprGrows(reg, d5.value, e.otherwise.value);
          } else {
            BareMoves(d5.value, O.Nul);
            MovesFrames(d5.value, Bare(d5.value, O.Nul));
          }
          GrowsAfter(c, d5.value, d6);
          if d6.Ok? {
            ReachesLen(c, d3.value);
            PatchAtKeeps(c, d6.value, jump, OmaContext.Len(d6.value));
            var d7 := PatchAt(d6.value, jump, OmaContext.Len(d6.value));
            if d7.Ok? {
              ReachesPatched(c, d6.value, d7.value);
            }
          }
        }
      }
    }
  }

  lemma {:induction false} WhileGrows(reg: Registry, c: Context, e: Expr)
    requires e.While?
    ensures Grows(c, GenWhile(reg, c, e))
    decreases e, 0
  {
    hide Extends, SameFrames, Moves, Bare, WithUsize, Placeholder, PatchAt, GenExpr;
    ExprGrows(reg, c, e.condition);
    var d1 := GenExpr(reg, c, e.condition);
    if d1.Ok? {
      var (d2, jumpIf) := Placeholder(d1.value, O.Jif);
      PlaceholderMoves(d1.value, O.Jif);
      ReachesMoves(c, d1.value, d2);
      ExprGrows(reg, d2, e.body);
      var d3 := GenExpr(reg, d2, e.body);
      if d3.Ok? {
        ReachesTrans(c, d2, d3.value);
        var d4 := WithUsize(d3.value, O.Jmp, OmaContext.Len(c));
        WithUsizeMoves(d3.value, O.Jmp, OmaContext.Len(c));
        ReachesMoves(c, d3.value, d4);
        ReachesLen(c, d1.value);
        PatchAtKeeps(c, d4, jumpIf, OmaContext.Len(d4));
        var d5 := PatchAt(d4, jumpIf, OmaContext.Len(d4));
        if d5.Ok? {
          ReachesPatched(c, d4, d5.value);
          BareMoves(d5.value, O.Nul);
          ReachesMoves(c, d5.value, Bare(d5.value, O.Nul));
        }
      }
    }
  }

  lemma {:induction false} CaseGrows(reg: Registry, c: Context, e: Expr)
    requires e.Case?
    ensures Grows(c, GenCase(reg, c, e))
    decreases e, 0
  {
    hide Extends, SameFrames, GenExpr, GenArms;
    ExprGrows(reg, c, e.subject);
    var d := GenExpr(reg, c, e.subject);
    if d.Ok? {
      MovesRefl(d.value);
      MovesFrames(d.value, d.value);
      ArmsGrows(reg, d.value, d.value, e.arms, [], []);
      GrowsAfter(c, d.value, GenArms(reg, d.value, e.arms, [], []));
    }
  }

  /** The jumps still to patch all lie at or after where the arms began. */
  predicate After(c0: Context, jumps: seq<nat>) {
    forall k :: 0 <= k < |jumps| ==> |c0.chunk.code| <= jumps[k]
  }

  lemma {:induction false} ArmsGrows(reg: Registry, c0: Context, c: Context, arms: seq<Arm>, failJumps: seq<nat>, endJumps: seq<nat>)
    requires Reaches(c0, c) && After(c0, failJumps) && After(c0, endJumps)
    ensures Grows(c0, GenArms(reg, c, arms, failJumps, endJumps))
    decreases arms, 0
  {
    hide Extends, SameFrames, Moves, LaterJumps, Bare, Placeholder, PatchAll, EnterScope, ExitScope, GenCasePat, GenExpr;
    PatchAllKeeps(c0, c, failJumps);
    var d1 := PatchAll(c, failJumps);
    if d1.Ok? {
      ReachesPatched(c0, c, d1.value);
      if arms == [] {
        var n := Bare(d1.value, O.Nul);
        BareMoves(d1.value, O.Nul);
        ReachesMoves(c0, d1.value, n);
        PatchAllKeeps(c0, n, endJumps) by {
          assert Extends(c0, n);
        }
        var d2 := PatchAll(n, endJumps);
        if d2.Ok? {
          ReachesPatched(c0, n, d2.value);
          BareMoves(d2.value, O.Swp);
          BareMoves(Bare(d2.value, O.Swp), O.Pop);
          ReachesMoves(c0, d2.value, Bare(d2.value, O.Swp));
          ReachesMoves(c0, Bare(d2.value, O.Swp), Bare(Bare(d2.value, O.Swp), O.Pop));
        }
      } else {
        var arm := arms[0];
        assert arm in arms && arm.body < arm;
        var s := EnterScope(d1.value);
        CasePatGrows(s, [], [], arm.pat);
        var p := GenCasePat(s, [], [], arm.pat);
        if p.Ok? {
          ExprGrows(reg, p.value.0, arm.body);
          var d3 := GenExpr(reg, p.value.0, arm.body);
          if d3.Ok? {
            var (d4, endJump) := Placeholder(d3.value, O.Jmp);
            PlaceholderMoves(d3.value, O.Jmp);
            ArmStep(c0, d1.value, p.value.0, d3.value, d4);
            var x := ExitScope(d4).0;
            LaterAfter(c0, s, p.value.1);
            ArmsGrows(reg, c0, x, arms[1..], p.value.1, endJumps + [endJump]);
          }
        }
      }
    }
  }
}
