/**
 * The oma code generator: a registry of native names and the context of the
 * function being compiled, which every lowering routine updates in place.
 * Each method is proved to leave the context (or return the error) that the
 * matching function of `OmaGenSpec` describes.
 */
module OmaGen {
  import opened Wrappers
  import opened Bytes
  import opened OmaAst
  import opened OmaContext
  import opened OmaGenSpec
  import OmaLocals
  import Tokens
  import O = Opcodes
  import ShuChunk
  import CC = CompilerChunk

  /** A routine's outcome paired with what it leaves behind. */
  function AfterWith<T>(r: Result<(), Tokens.CompileError>, v: T): Result<T, Tokens.CompileError> {
    if r.Ok? then Ok(v) else Err(r.error)
  }

  class Generator {
    const registry: Registry
    var context: Context

    /** `Generator::new`. */
    constructor(registry: Registry)
      ensures this.registry == registry && context == New()
    {
      this.registry := registry;
      context := New();
    }

    /** `Generator::generate` and `module`, on a generator fresh from `new`. */
    method Generate(m: Module) returns (r: Result<ShuChunk.Function, Tokens.CompileError>)
      requires context == New()
      modifies this
      ensures r == GenModule(registry, m)
    {
      if !OmaLocals.Countable(m.body) {
        return Err(Tokens.Panic);
      }
      var locals := OmaLocals.CountExprLocals(m.body);
      var b := Expr(m.body);
      if b.Err? {
        return Err(b.error);
      }
      EmitBare(O.Ret);
      return Ok(ShuChunk.Function(0, context.chunk, locals, []));
    }

    // Emission

    method EmitOp(op: CC.Op) returns (offset: nat)
      requires op.operand.Some? ==> CC.OperandInRange(op.operand.value)
      modifies this
      ensures (context, offset) == Emit(old(context), op)
    {
      context, offset := Emit(context, op).0, Emit(context, op).1;
    }

    method EmitBare(code: O.Opcode)
      modifies this
      ensures context == Bare(old(context), code)
    {
      var _ := EmitOp(CC.Op(code, None));
    }

    method EmitUsize(code: O.Opcode, n: nat)
      modifies this
      ensures context == WithUsize(old(context), code, n)
    {
      var _ := EmitOp(CC.Op(code, Some(CC.Usize(n))));
    }

    method EmitString(code: O.Opcode, s: seq<u8>)
      modifies this
      ensures context == WithString(old(context), code, s)
    {
      var _ := EmitOp(CC.Op(code, Some(CC.String(s))));
    }

    method EmitPlaceholder(code: O.Opcode) returns (offset: nat)
      modifies this
      ensures (context, offset) == Placeholder(old(context), code)
    {
      offset := EmitOp(CC.Op(code, Some(CC.Usize(USIZE_MAX))));
    }

    method PatchTo(offset: nat, target: nat) returns (r: Result<(), Tokens.CompileError>)
      modifies this
      ensures AfterWith(r, context) == PatchAt(old(context), offset, target)
    {
      var p := Patch(context, offset, target);
      if p.None? {
        return Err(Tokens.Panic);
      }
      context := p.value;
      return Ok(());
    }

    /** The loops that patch a list of jumps to the current code length. */
    method PatchEach(offsets: seq<nat>) returns (r: Result<(), Tokens.CompileError>)
      modifies this
      ensures AfterWith(r, context) == PatchAll(old(context), offsets)
    {
      var i := 0;
      while i < |offsets|
        invariant 0 <= i <= |offsets|
        invariant PatchAll(context, offsets[i..]) == PatchAll(old(context), offsets)
      {
        assert offsets[i..][1..] == offsets[i + 1..];
        var p := PatchTo(offsets[i], OmaContext.Len(context));
        if p.Err? {
          return p;
        }
        i := i + 1;
      }
      return Ok(());
    }

    // Lowering

    /** `Generator::expr`. */
    method Expr(e: Expr) returns (r: Result<(), Tokens.CompileError>)
      modifies this
      ensures AfterWith(r, context) == GenExpr(registry, old(context), e)
      decreases e, 1
    {
      hide GenLit, GenIdent, GenMapPairs, GenArrayItems, GenLambda, GenBlockExprs, GenBinary, StorePat, GenAssign, GenCall,
        GenAccess, GenIf, GenCase, GenWhile, Bare, WithString;
      match e {
        case Literal(lit) =>
          Lit(lit);
          r := Ok(());
        case Name(ident) => r := Ident(ident);
        case Map(_, _) => r := MapExpr(e);
        case Array(_, _) => r := ArrayExpr(e);
        case Lambda(_, _, _) => r := LambdaExpr(e);
        case Tag(_, _, _) => r := TagExpr(e);
        case Block(_, _, _) => r := BlockExpr(e);
        case Binary(_, _, _) => r := BinaryExpr(e);
        case Unary(_, _, _) => r := UnaryExpr(e);
        case Bind(_, _) => r := BindExpr(e);
        case Assign(_, _) => r := AssignExpr(e);
        case Call(_, _) => r := CallExpr(e);
        case Access(access) => r := AccessExpr(access);
        case If(_, _, _, _) => r := IfExpr(e);
        case Case(_, _, _) => r := CaseExpr(e);
        case For(_, _, _, _) => r := Err(Tokens.Panic);
        case While(_, _, _) => r := WhileExpr(e);
      }
    }

    /** `Generator::map_expr`. */
    method MapExpr(e: Expr) returns (r: Result<(), Tokens.CompileError>)
      requires e.Map?
      modifies this
      ensures AfterWith(r, context) == GenExpr(registry, old(context), e)
      decreases e, 0
    {
      EmitBare(O.Map);
      var pairs := e.pairs;
      var i := 0;
      while i < |pairs|
        invariant 0 <= i <= |pairs|
        invariant GenMapPairs(registry, context, pairs[i..]) == GenExpr(registry, old(context), e)
      {
        var pair := pairs[i];
        assert pairs[i..][0] == pair && pairs[i..][1..] == pairs[i + 1..];
        assert pair in pairs;
        match pair {
          case PairIdent(key, value) =>
            assert value < pair;
            EmitBare(O.Dup);
            var v := Expr(value);
            if v.Err? {
              return v;
            }
            EmitString(O.Str, key.content);
            EmitBare(O.Set);
            EmitBare(O.Pop);
          case _ =>
            return Err(Tokens.Panic);
        }
        i := i + 1;
      }
      return Ok(());
    }

    /** `Generator::array_expr`. */
    method ArrayExpr(e: Expr) returns (r: Result<(), Tokens.CompileError>)
      requires e.Array?
      modifies this
      ensures AfterWith(r, context) == GenExpr(registry, old(context), e)
      decreases e, 0
    {
      EmitBare(O.Arr);
      var items := e.items;
      var i := 0;
      while i < |items|
        invariant 0 <= i <= |items|
        invariant GenArrayItems(registry, context, items[i..]) == GenExpr(registry, old(context), e)
      {
        var item := items[i];
        assert items[i..][0] == item && items[i..][1..] == items[i + 1..];
        assert item in items;
        match item {
          case ItemExpr(value) =>
            assert value < item;
            EmitBare(O.Dup);
            var v := Expr(value);
            if v.Err? {
              return v;
            }
            EmitBare(O.Apn);
            EmitBare(O.Pop);
          case _ =>
            return Err(Tokens.Panic);
        }
        i := i + 1;
      }
      return Ok(());
    }

    /** `Generator::lambda_expr`: swap in a child context, lower, swap back and emit `Lmd`. */
    method LambdaExpr(e: Expr) returns (r: Result<(), Tokens.CompileError>)
      requires e.Lambda?
      modifies this
      ensures AfterWith(r, context) == GenLambda(registry, old(context), e)
      decreases e, 0
    {
      var arity := |e.parameters|;
      if !OmaLocals.Countable(e.body) {
        return Err(Tokens.Panic);
      }
      var locals := OmaLocals.CountExprLocals(e.body);
      context := WithParent(Some(context));
      var parameters := e.parameters;
      var i := 0;
      while i < |parameters|
        invariant 0 <= i <= |parameters|
        invariant AddParams(context, parameters[i..]) == AddParams(WithParent(Some(old(context))), parameters)
      {
        assert parameters[i..][0] == parameters[i] && parameters[i..][1..] == parameters[i + 1..];
        match parameters[i] {
          case ParamPat(IdentPat(ident)) =>
            context := AddLocal(context, ident).0;
          case _ =>
            return Err(Tokens.Panic);
        }
        i := i + 1;
      }
      var b := Expr(e.body);
      if b.Err? {
        return b;
      }
      EmitBare(O.Ret);
      var done := context;
      if done.parent.None? {
        return Err(Tokens.Panic);
      }
      context := done.parent.value;
      var fn := ShuChunk.Function(arity, done.chunk, locals, done.upvalues);
      var _ := EmitOp(CC.Op(O.Lmd, Some(CC.Function(fn))));
      return Ok(());
    }

    /** `Generator::tag_expr`. */
    method TagExpr(e: Expr) returns (r: Result<(), Tokens.CompileError>)
      requires e.Tag?
      modifies this
      ensures AfterWith(r, context) == GenExpr(registry, old(context), e)
      decreases e, 0
    {
      r := Expr(e.expr);
      if r.Ok? {
        EmitString(O.Str, e.tag.content);
        EmitBare(O.Tag);
      }
    }

    /** `Generator::block_expr`. */
    method BlockExpr(e: Expr) returns (r: Result<(), Tokens.CompileError>)
      requires e.Block?
      modifies this
      ensures AfterWith(r, context) == GenExpr(registry, old(context), e)
      decreases e, 0
    {
      var exprs := e.exprs;
      if exprs == [] {
        EmitBare(O.Nul);
        return Ok(());
      }
      var i := 0;
      while i < |exprs| - 1
        invariant 0 <= i <= |exprs| - 1
        invariant GenBlockExprs(registry, context, exprs[i..], e.hasSemi) == GenExpr(registry, old(context), e)
      {
        assert exprs[i..][0] == exprs[i] && exprs[i..][1..] == exprs[i + 1..];
        assert exprs[i] in exprs;
        var x := Expr(exprs[i]);
        if x.Err? {
          return x;
        }
        EmitBare(O.Clu);
        i := i + 1;
      }
      assert exprs[i..] == [exprs[i]] && exprs[i] in exprs;
      r := Expr(exprs[i]);
      if r.Ok? && e.hasSemi {
        EmitBare(O.Clu);
        EmitBare(O.Nul);
      }
    }

    /** `Generator::binary_expr`. */
    method BinaryExpr(e: Expr) returns (r: Result<(), Tokens.CompileError>)
      requires e.Binary?
      modifies this
      ensures AfterWith(r, context) == GenBinary(registry, old(context), e)
      decreases e, 0
    {
      r := Expr(e.left);
      if r.Err? {
        return;
      }
      r := Expr(e.right);
      if r.Err? {
        return;
      }
      var code := BinaryCode(e.op);
      if code.None? {
        return Err(Tokens.Panic);
      }
      EmitBare(code.value);
    }

    /** `Generator::unary_expr`. */
    method UnaryExpr(e: Expr) returns (r: Result<(), Tokens.CompileError>)
      requires e.Unary?
      modifies this
      ensures AfterWith(r, context) == GenExpr(registry, old(context), e)
      decreases e, 0
    {
      r := Expr(e.operand);
      if r.Ok? {
        EmitBare(if e.uop == Negate then O.Neg else O.Not);
      }
    }

    /** `Generator::bind_expr`. */
    method BindExpr(e: Expr) returns (r: Result<(), Tokens.CompileError>)
      requires e.Bind?
      modifies this
      ensures AfterWith(r, context) == GenExpr(registry, old(context), e)
      decreases e, 0
    {
      r := Expr(e.value);
      if r.Ok? {
        r := StoreExprPat(e.bindee, true);
      }
    }

    /** `Generator::assign_expr`. */
    method AssignExpr(e: Expr) returns (r: Result<(), Tokens.CompileError>)
      requires e.Assign?
      modifies this
      ensures AfterWith(r, context) == GenAssign(registry, old(context), e)
      decreases e, 0
    {
      match e.assignee {
        case AssigneePat(pat) =>
          r := Expr(e.value);
          if r.Ok? {
            r := StoreExprPat(pat, false);
          }
        case AssigneeAccess(access) =>
          r := Expr(access.receiver);
          if r.Err? {
            return;
          }
          r := Expr(e.value);
          if r.Err? {
            return;
          }
          r := Field(access.field);
          if r.Ok? {
            EmitBare(O.Set);
          }
      }
    }

    /** `Generator::bind_expr_pat` (declare) and `assign_expr_pat` (not declare). */
    method StoreExprPat(p: Pat, declare: bool) returns (r: Result<(), Tokens.CompileError>)
      modifies this
      ensures AfterWith(r, context) == StorePat(old(context), p, declare)
      decreases p, 1
    {
      match p {
        case IdentPat(ident) =>
          var slot: nat;
          if declare {
            context, slot := AddLocal(context, ident).0, AddLocal(context, ident).1;
          } else {
            var local := LocalOf(context, ident);
            if local.None? {
              return Err(Unresolved(ident.span));
            }
            slot := local.value;
          }
          EmitUsize(O.Sav, slot);
          return Ok(());
        case TagPat(_, _, inner) =>
          EmitBare(O.Dup);
          EmitBare(O.Utg);
          r := StoreExprPat(inner, declare);
          if r.Ok? {
            EmitBare(O.Pop);
          }
        case MapPat(_, pairs) =>
          r := StoreExprPairs(pairs, declare);
        case _ =>
          return Err(Tokens.Panic);
      }
    }

    /** The loop over a map pattern's fields in `bind_expr_pat` and `assign_expr_pat`. */
    method StoreExprPairs(pairs: seq<MapPatPair>, declare: bool) returns (r: Result<(), Tokens.CompileError>)
      modifies this
      ensures AfterWith(r, context) == StorePairs(old(context), pairs, declare)
      decreases pairs, 0
    {
      hide StorePat, Bare, WithString, WithUsize;
      var i := 0;
      while i < |pairs|
        invariant 0 <= i <= |pairs|
        invariant StorePairs(context, pairs[i..], declare) == StorePairs(old(context), pairs, declare)
      {
        var pair := pairs[i];
        assert pairs[i..][0] == pair && pairs[i..][1..] == pairs[i + 1..];
        assert pair in pairs;
        match pair {
          case PatField(field, pat) =>
            assert pat < pair;
            EmitBare(O.Dup);
            EmitString(O.Str, field.content);
            EmitBare(O.Get);
            var s := StoreExprPat(pat, declare);
            if s.Err? {
              return s;
            }
            EmitBare(O.Pop);
          case PatSpread(_) =>
            return Err(Tokens.Panic);
        }
        i := i + 1;
      }
      return Ok(());
    }

    /** `Generator::call_expr`. */
    method CallExpr(e: Expr) returns (r: Result<(), Tokens.CompileError>)
      requires e.Call?
      modifies this
      ensures AfterWith(r, context) == GenCall(registry, old(context), e)
      decreases e, 0
    {
      r := Expr(e.receiver);
      if r.Err? {
        return;
      }
      var c1 := context;
      var arguments := e.arguments;
      var i := 0;
      while i < |arguments|
        invariant 0 <= i <= |arguments|
        invariant GenArgs(registry, context, arguments[i..]) == GenArgs(registry, c1, arguments)
      {
        var argument := arguments[i];
        assert arguments[i..][0] == argument && arguments[i..][1..] == arguments[i + 1..];
        assert argument in arguments;
        match argument {
          case ArgExpr(x) =>
            assert x < argument;
            var a := Expr(x);
            if a.Err? {
              return a;
            }
          case ArgSpread(_) =>
            return Err(Tokens.Panic);
        }
        i := i + 1;
      }
      EmitUsize(O.Cal, |arguments|);
      return Ok(());
    }

    /** `Generator::access_expr`. */
    method AccessExpr(access: AccessExpr) returns (r: Result<(), Tokens.CompileError>)
      modifies this
      ensures AfterWith(r, context) == GenAccess(registry, old(context), access)
      decreases access, 0
    {
      r := Expr(access.receiver);
      if r.Err? {
        return;
      }
      r := Field(access.field);
      if r.Ok? {
        EmitBare(O.Get);
      }
    }

    method Field(field: AccessField) returns (r: Result<(), Tokens.CompileError>)
      modifies this
      ensures AfterWith(r, context) == GenField(registry, old(context), field)
      decreases field, 0
    {
      match field {
        case FieldExpr(x) => r := Expr(x);
        case FieldIdent(ident) =>
          EmitString(O.Str, ident.content);
          r := Ok(());
      }
    }

    /** `Generator::if_expr`. */
    method IfExpr(e: Expr) returns (r: Result<(), Tokens.CompileError>)
      requires e.If?
      modifies this
      ensures AfterWith(r, context) == GenIf(registry, old(context), e)
      decreases e, 0
    {
      r := Expr(e.condition);
      if r.Err? {
        return;
      }
      var jumpIf := EmitPlaceholder(O.Jif);
      r := Expr(e.body);
      if r.Err? {
        return;
      }
      var jump := EmitOp(CC.Op(O.Jmp, None));
      r := PatchTo(jumpIf, OmaContext.Len(context));
      if r.Err? {
        return;
      }
      if e.otherwise.Some? {
        r := Expr(e.otherwise.value);
        if r.Err? {
          return;
        }
      } else {
        EmitBare(O.Nul);
      }
      r := PatchTo(jump, OmaContext.Len(context));
    }

    /** `Generator::case_expr`. */
    method CaseExpr(e: Expr) returns (r: Result<(), Tokens.CompileError>)
      requires e.Case?
      modifies this
      ensures AfterWith(r, context) == GenCase(registry, old(context), e)
      decreases e, 0
    {
      r := Expr(e.subject);
      if r.Err? {
        return;
      }
      var arms := e.arms;
      var failJumps: seq<nat> := [];
      var endJumps: seq<nat> := [];
      var c1 := context;
      var i := 0;
      while i < |arms|
        invariant 0 <= i <= |arms|
        invariant GenArms(registry, context, arms[i..], failJumps, endJumps) == GenArms(registry, c1, arms, [], [])
      {
        var arm := arms[i];
        assert arms[i..][0] == arm && arms[i..][1..] == arms[i + 1..];
        assert arm in arms && arm.body < arm;
        r := PatchEach(failJumps);
        if r.Err? {
          return;
        }
        context := EnterScope(context);
        r, failJumps := CaseExprPat([], [], arm.pat);
        if r.Err? {
          return;
        }
        r := Expr(arm.body);
        if r.Err? {
          return;
        }
        var endJump := EmitPlaceholder(O.Jmp);
        endJumps := endJumps + [endJump];
        if context.localDepth == 0 {
          return Err(Tokens.Panic);
        }
        var popCount;
        context, popCount := ExitScopeOf(context);
        i := i + 1;
      }
      r := PatchEach(failJumps);
      if r.Err? {
        return;
      }
      EmitBare(O.Nul);
      r := PatchEach(endJumps);
      if r.Err? {
        return;
      }
      EmitBare(O.Swp);
      EmitBare(O.Pop);
    }

    /** `Generator::case_expr_pat`: the failure jumps it adds are returned with the list. */
    method CaseExprPat(failJumps: seq<nat>, path: seq<seq<u8>>, p: Pat) returns (r: Result<(), Tokens.CompileError>, fails: seq<nat>)
      modifies this
      ensures AfterWith(r, (context, fails)) == GenCasePat(old(context), failJumps, path, p)
      decreases p, 1
    {
      fails := failJumps;
      match p {
        case IdentPat(ident) =>
          var slot;
          context, slot := AddLocal(context, ident).0, AddLocal(context, ident).1;
          EmitBare(O.Dup);
          CaseExprPatSubject(path);
          EmitUsize(O.Sav, slot);
          EmitBare(O.Pop);
          r := Ok(());
        case TagPat(_, tag, inner) =>
          EmitBare(O.Dup);
          CaseExprPatSubject(path);
          EmitBare(O.Gtg);
          EmitString(O.Str, tag.content);
          EmitBare(O.Eql);
          var fail := EmitPlaceholder(O.Jif);
          r, fails := CaseExprPat(failJumps + [fail], path + [UTG], inner);
        case MapPat(_, pairs) =>
          r, fails := CaseExprPairs(failJumps, path, pairs);
        case LitPat(lit) =>
          EmitBare(O.Dup);
          CaseExprPatSubject(path);
          Lit(lit);
          EmitBare(O.Eql);
          var fail := EmitPlaceholder(O.Jif);
          fails := failJumps + [fail];
          r := Ok(());
        case ArrayPat(_, _) =>
          r := Err(Tokens.Panic);
      }
    }

    /** The loop over a map pattern's fields in `case_expr_pat`. */
    method CaseExprPairs(failJumps: seq<nat>, path: seq<seq<u8>>, pairs: seq<MapPatPair>) returns (r: Result<(), Tokens.CompileError>, fails: seq<nat>)
      modifies this
      ensures AfterWith(r, (context, fails)) == GenCasePairs(old(context), failJumps, path, pairs)
      decreases pairs, 0
    {
      hide GenCasePat, Subject, Bare, WithString, Placeholder;
      fails := failJumps;
      var i := 0;
      while i < |pairs|
        invariant 0 <= i <= |pairs|
        invariant GenCasePairs(context, fails, path, pairs[i..]) == GenCasePairs(old(context), failJumps, path, pairs)
      {
        var pair := pairs[i];
        assert pairs[i..][0] == pair && pairs[i..][1..] == pairs[i + 1..];
        assert pair in pairs;
        match pair {
          case PatField(field, pat) =>
            assert pat < pair;
            EmitBare(O.Dup);
            CaseExprPatSubject(path);
            EmitString(O.Str, field.content);
            EmitBare(O.Get);
            EmitBare(O.Nul);
            EmitBare(O.Eql);
            var fail := EmitPlaceholder(O.Jit);
            var s;
            s, fails := CaseExprPat(fails + [fail], path + [field.content], pat);
            if s.Err? {
              return s, fails;
            }
          case PatSpread(_) =>
            return Err(Tokens.Panic), fails;
        }
        i := i + 1;
      }
      r := Ok(());
    }

    /** `Generator::case_expr_pat_subject`. */
    method CaseExprPatSubject(path: seq<seq<u8>>)
      modifies this
      ensures context == Subject(old(context), path)
    {
      var i := 0;
      while i < |path|
        invariant 0 <= i <= |path|
        invariant Subject(context, path[i..]) == Subject(old(context), path)
      {
        assert path[i..][0] == path[i] && path[i..][1..] == path[i + 1..];
        if path[i] == UTG {
          EmitBare(O.Utg);
        } else {
          EmitString(O.Str, path[i]);
          EmitBare(O.Get);
        }
        i := i + 1;
      }
    }

    /** `Generator::while_expr`. */
    method WhileExpr(e: Expr) returns (r: Result<(), Tokens.CompileError>)
      requires e.While?
      modifies this
      ensures AfterWith(r, context) == GenWhile(registry, old(context), e)
      decreases e, 0
    {
      var start := OmaContext.Len(context);
      r := Expr(e.condition);
      if r.Err? {
        return;
      }
      var jumpIf := EmitPlaceholder(O.Jif);
      r := Expr(e.body);
      if r.Err? {
        return;
      }
      EmitUsize(O.Jmp, start);
      r := PatchTo(jumpIf, OmaContext.Len(context));
      if r.Ok? {
        EmitBare(O.Nul);
      }
    }

    /** `Generator::lit`. */
    method Lit(lit: Lit)
      modifies this
      ensures context == GenLit(old(context), lit)
    {
      match lit {
        case NumberLit(_, bits) =>
          var _ := EmitOp(CC.Op(O.Flt, Some(CC.F64(bits))));
        case BoolLit(_, b) => EmitBare(if b then O.Tru else O.Fls);
        case StringLit(_, text) => EmitString(O.Str, text);
        case NullLit(_) => EmitBare(O.Nul);
      }
    }

    /** `Generator::ident`. */
    method Ident(ident: Ident) returns (r: Result<(), Tokens.CompileError>)
      modifies this
      ensures AfterWith(r, context) == GenIdent(registry, old(context), ident)
    {
      var local := LocalOf(context, ident);
      if local.Some? {
        EmitUsize(O.Lod, local.value);
        return Ok(());
      }
      var up;
      context, up := UpvalueOf(context, ident);
      if up.Some? {
        EmitUsize(O.Lou, up.value);
        return Ok(());
      }
      var id := Lookup(ident.content);
      if id.Some? {
        EmitUsize(O.Nal, id.value);
        return Ok(());
      }
      return Err(Unresolved(ident.span));
    }

    /** The registry search: the first entry with that name. */
    method Lookup(name: seq<u8>) returns (id: Option<nat>)
      ensures id == FindRegistry(registry, name)
    {
      var i := 0;
      while i < |registry|
        invariant 0 <= i <= |registry|
        invariant FindRegistry(registry[i..], name) == FindRegistry(registry, name)
      {
        assert registry[i..][0] == registry[i] && registry[i..][1..] == registry[i + 1..];
        if registry[i].0 == name {
          return Some(registry[i].1);
        }
        i := i + 1;
      }
      return None;
    }
  }
}
