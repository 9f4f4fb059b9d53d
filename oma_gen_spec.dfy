/**
 * What the oma code generator produces, as functions of the registry of
 * native names, the context it starts in and the syntax tree. Each function
 * follows one lowering routine of the generator: the context it returns is
 * the one the generator holds afterwards, and an error is the one the
 * generator returns (`Panic` for its `unimplemented!` paths and for the
 * `unwrap`s and `usize` underflows that would abort it).
 */
module OmaGenSpec {
  import opened Wrappers
  import opened Bytes
  import opened Source
  import opened OmaAst
  import opened OmaContext
  import OmaLocals
  import Tokens
  import O = Opcodes
  import ShuChunk
  import CC = CompilerChunk

  /** The names the host registers, each with its native function id, in registration order. */
  type Registry = seq<(seq<u8>, nat)>

  type Outcome = Result<Context, Tokens.CompileError>

  /** The placeholder jump target, `usize::MAX`: it takes size class 3, eight operand bytes. */
  const USIZE_MAX: nat := 0xFFFF_FFFF_FFFF_FFFF

  /** The path component that stands for "untag" rather than a field name. */
  const UTG: seq<u8> := [0x5F, 0x5F, 0x55, 0x54, 0x47] // "__UTG"

  function Unresolved(span: Span): Tokens.CompileError {
    Tokens.Verify(Tokens.VerifyError(span, Tokens.UnresolvedIdentifier))
  }

  // Emission helpers

  function Bare(c: Context, code: O.Opcode): Context {
    Emit(c, CC.Op(code, None)).0
  }

  function WithUsize(c: Context, code: O.Opcode, n: nat): Context {
    Emit(c, CC.Op(code, Some(CC.Usize(n)))).0
  }

  function WithString(c: Context, code: O.Opcode, s: seq<u8>): Context {
    Emit(c, CC.Op(code, Some(CC.String(s)))).0
  }

  /** A jump with the `usize::MAX` placeholder, and the offset to patch later. */
  function Placeholder(c: Context, code: O.Opcode): (Context, nat) {
    Emit(c, CC.Op(code, Some(CC.Usize(USIZE_MAX))))
  }

  /** `patch` with a `usize` target, which panics when the operand lies outside the code. */
  function PatchAt(c: Context, offset: nat, target: nat): Outcome {
    var p := Patch(c, offset, target);
    if p.Some? then Ok(p.value) else Err(Tokens.Panic)
  }

  /** Patch every offset, in order, to the code length. */
  function PatchAll(c: Context, offsets: seq<nat>): Outcome
    decreases offsets
  {
    if offsets == [] then Ok(c)
    else
      var d :- PatchAt(c, offsets[0], OmaContext.Len(c));
      PatchAll(d, offsets[1..])
  }

  /** The first registry entry with that name. */
  function FindRegistry(reg: Registry, name: seq<u8>): (r: Option<nat>)
    ensures r.Some? <==> exists i :: 0 <= i < |reg| && reg[i].0 == name
    ensures r.Some? ==> exists i :: 0 <= i < |reg| && reg[i] == (name, r.value) && forall j :: 0 <= j < i ==> reg[j].0 != name
  {
    if reg == [] then None
    else if reg[0].0 == name then
      assert reg[0] == (name, reg[0].1);
      Some(reg[0].1)
    else
      var r := FindRegistry(reg[1..], name);
      if r.Some? then
        var i :| 0 <= i < |reg[1..]| && reg[1..][i] == (name, r.value) && forall j :: 0 <= j < i ==> reg[1..][j].0 != name;
        assert reg[i + 1] == (name, r.value) && forall j :: 0 <= j < i + 1 ==> reg[j].0 != name by {
          forall j | 0 <= j < i + 1 ensures reg[j].0 != name {
            if j > 0 {
              assert reg[j] == reg[1..][j - 1];
            }
          }
        }
        r
      else
        assert forall i :: 0 < i < |reg| ==> reg[i] == reg[1..][i - 1];
        r
  }

  /** The opcode of a binary operator; `&&` and `||` have none. */
  function BinaryCode(op: BinaryOp): (r: Option<O.Opcode>) {
    match op
    case Add => Some(O.Add)
    case Subtract => Some(O.Sub)
    case Multiply => Some(O.Mul)
    case Divide => Some(O.Div)
    case And => None
    case Or => None
    case Equal => Some(O.Eql)
    case NotEqual => Some(O.Neq)
    case Greater => Some(O.Gtn)
    case GreaterEqual => Some(O.Gte)
    case Less => Some(O.Ltn)
    case LessEqual => Some(O.Lte)
  }

  // Lowering

  /** `Generator::module`: the body, then `Ret`, as the arity-0 main function. */
  function GenModule(reg: Registry, m: Module): Result<ShuChunk.Function, Tokens.CompileError> {
    if !OmaLocals.Countable(m.body) then Err(Tokens.Panic)
    else
      var d :- GenExpr(reg, New(), m.body);
      Ok(ShuChunk.Function(0, Bare(d, O.Ret).chunk, OmaLocals.Use(m.body).peak, []))
  }

  /** `Generator::expr`. */
  function GenExpr(reg: Registry, c: Context, e: Expr): Outcome
    decreases e, 1
  {
    match e
    case Literal(lit) => Ok(GenLit(c, lit))
    case Name(ident) => GenIdent(reg, c, ident)
    case Map(_, pairs) => GenMapPairs(reg, Bare(c, O.Map), pairs)
    case Array(_, items) => GenArrayItems(reg, Bare(c, O.Arr), items)
    case Lambda(_, _, _) => GenLambda(reg, c, e)
    case Tag(_, tag, inner) =>
      var d :- GenExpr(reg, c, inner);
      Ok(Bare(WithString(d, O.Str, tag.content), O.Tag))
    case Block(_, exprs, hasSemi) =>
      if exprs == [] then Ok(Bare(c, O.Nul)) else GenBlockExprs(reg, c, exprs, hasSemi)
    case Binary(_, _, _) => GenBinary(reg, c, e)
    case Unary(_, uop, operand) =>
      var d :- GenExpr(reg, c, operand);
      Ok(Bare(d, if uop == Negate then O.Neg else O.Not))
    case Bind(bindee, value) =>
      var d :- GenExpr(reg, c, value);
      StorePat(d, bindee, true)
    case Assign(_, _) => GenAssign(reg, c, e)
    case Call(_, _) => GenCall(reg, c, e)
    case Access(access) => GenAccess(reg, c, access)
    case If(_, _, _, _) => GenIf(reg, c, e)
    case Case(_, _, _) => GenCase(reg, c, e)
    case For(_, _, _, _) => Err(Tokens.Panic)
    case While(_, _, _) => GenWhile(reg, c, e)
  }

  /** `Generator::map_expr`'s loop: per entry `Dup`, the value, `Str key`, `Set`, `Pop`. */
  function GenMapPairs(reg: Registry, c: Context, pairs: seq<MapExprPair>): Outcome
    decreases pairs, 0
  {
    if pairs == [] then Ok(c)
    else
      var pair := pairs[0];
      assert pair in pairs;
      match pair
      case PairIdent(key, value) =>
        assert value < pair;
        var d :- GenExpr(reg, Bare(c, O.Dup), value);
        GenMapPairs(reg, Bare(Bare(WithString(d, O.Str, key.content), O.Set), O.Pop), pairs[1..])
      case _ => Err(Tokens.Panic)
  }

  /** `Generator::array_expr`'s loop: per item `Dup`, the value, `Apn`, `Pop`. */
  function GenArrayItems(reg: Registry, c: Context, items: seq<ArrayExprItem>): Outcome
    decreases items, 0
  {
    if items == [] then Ok(c)
    else
      var item := items[0];
      assert item in items;
      match item
      case ItemExpr(value) =>
        assert value < item;
        var d :- GenExpr(reg, Bare(c, O.Dup), value);
        GenArrayItems(reg, Bare(Bare(d, O.Apn), O.Pop), items[1..])
      case _ => Err(Tokens.Panic)
  }

  /**
   * `Generator::lambda_expr`: the body is lowered in a fresh context whose
   * parent is the current one and whose slots after `__lambda` are the
   * parameters; the finished function, with its counted locals and its
   * captures, becomes an `Lmd` constant of the enclosing function.
   */
  function GenLambda(reg: Registry, c: Context, e: Expr): Outcome
    requires e.Lambda?
    decreases e, 0
  {
    if !OmaLocals.Countable(e.body) then Err(Tokens.Panic)
    else
      var inner :- AddParams(WithParent(Some(c)), e.parameters);
      var d :- GenExpr(reg, inner, e.body);
      var done := Bare(d, O.Ret);
      if done.parent.None? then Err(Tokens.Panic)
      else
        var fn := ShuChunk.Function(|e.parameters|, done.chunk, OmaLocals.Use(e.body).peak, done.upvalues);
        Ok(Emit(done.parent.value, CC.Op(O.Lmd, Some(CC.Function(fn)))).0)
  }

  /** The parameter loop: each must be a plain identifier, bound in the next slot. */
  function AddParams(c: Context, parameters: seq<LambdaExprParameter>): Outcome
    decreases parameters
  {
    if parameters == [] then Ok(c)
    else
      match parameters[0]
      case ParamPat(IdentPat(ident)) => AddParams(AddLocal(c, ident).0, parameters[1..])
      case _ => Err(Tokens.Panic)
  }

  /** `Generator::block_expr` on a non-empty block: `Clu` after every expression but the last. */
  function GenBlockExprs(reg: Registry, c: Context, exprs: seq<Expr>, hasSemi: bool): Outcome
    requires exprs != []
    decreases exprs, 0
  {
    assert exprs[0] in exprs;
    var d :- GenExpr(reg, c, exprs[0]);
    if |exprs| == 1 then Ok(if hasSemi then Bare(Bare(d, O.Clu), O.Nul) else d)
    else GenBlockExprs(reg, Bare(d, O.Clu), exprs[1..], hasSemi)
  }

  /** `Generator::binary_expr`: both operands, then the operator's opcode. */
  function GenBinary(reg: Registry, c: Context, e: Expr): Outcome
    requires e.Binary?
    decreases e, 0
  {
    var l :- GenExpr(reg, c, e.left);
    var r :- GenExpr(reg, l, e.right);
    var code := BinaryCode(e.op);
    if code.None? then Err(Tokens.Panic) else Ok(Bare(r, code.value))
  }

  /**
   * `bind_expr_pat` (declare) and `assign_expr_pat` (not declare): store the
   * value on top into the identifiers of the pattern, each `Tag` level by
   * `Dup Utg .. Pop`, each map field by `Dup Str field Get .. Pop`. A new
   * binding takes the next slot; an assignment needs an existing local.
   */
  function StorePat(c: Context, p: Pat, declare: bool): Outcome
    decreases p, 1
  {
    match p
    case IdentPat(ident) =>
      if declare then
        var (d, slot) := AddLocal(c, ident);
        Ok(WithUsize(d, O.Sav, slot))
      else
        var slot := FindLocal(c.locals, ident.content);
        if slot.None? then Err(Unresolved(ident.span)) else Ok(WithUsize(c, O.Sav, slot.value))
    case TagPat(_, _, inner) =>
      var d :- StorePat(Bare(Bare(c, O.Dup), O.Utg), inner, declare);
      Ok(Bare(d, O.Pop))
    case MapPat(_, pairs) => StorePairs(c, pairs, declare)
    case _ => Err(Tokens.Panic)
  }

  function StorePairs(c: Context, pairs: seq<MapPatPair>, declare: bool): Outcome
    decreases pairs, 0
  {
    if pairs == [] then Ok(c)
    else
      var pair := pairs[0];
      assert pair in pairs;
      match pair
      case PatField(field, pat) =>
        assert pat < pair;
        var d :- StorePat(Bare(WithString(Bare(c, O.Dup), O.Str, field.content), O.Get), pat, declare);
        StorePairs(Bare(d, O.Pop), pairs[1..], declare)
      case PatSpread(_) => Err(Tokens.Panic)
  }

  /** `Generator::assign_expr`: a pattern target stores into locals, an access target ends in `Set`. */
  function GenAssign(reg: Registry, c: Context, e: Expr): Outcome
    requires e.Assign?
    decreases e, 0
  {
    match e.assignee
    case AssigneePat(pat) =>
      var d :- GenExpr(reg, c, e.value);
      StorePat(d, pat, false)
    case AssigneeAccess(access) =>
      var d1 :- GenExpr(reg, c, access.receiver);
      var d2 :- GenExpr(reg, d1, e.value);
      var d3 :- GenField(reg, d2, access.field);
      Ok(Bare(d3, O.Set))
  }

  /** `Generator::call_expr`: the receiver, the arguments in order, `Cal` with the argument count. */
  function GenCall(reg: Registry, c: Context, e: Expr): Outcome
    requires e.Call?
    decreases e, 0
  {
    var d1 :- GenExpr(reg, c, e.receiver);
    var d2 :- GenArgs(reg, d1, e.arguments);
    Ok(WithUsize(d2, O.Cal, |e.arguments|))
  }

  function GenArgs(reg: Registry, c: Context, arguments: seq<CallExprArgument>): Outcome
    decreases arguments, 0
  {
    if arguments == [] then Ok(c)
    else
      var argument := arguments[0];
      assert argument in arguments;
      match argument
      case ArgExpr(x) =>
        assert x < argument;
        var d :- GenExpr(reg, c, x);
        GenArgs(reg, d, arguments[1..])
      case ArgSpread(_) => Err(Tokens.Panic)
  }

  /** `Generator::access_expr`: the receiver, the field, `Get`. */
  function GenAccess(reg: Registry, c: Context, access: AccessExpr): Outcome
    decreases access, 0
  {
    var d1 :- GenExpr(reg, c, access.receiver);
    var d2 :- GenField(reg, d1, access.field);
    Ok(Bare(d2, O.Get))
  }

  /** A computed field is lowered as an expression; a named one is a `Str` constant. */
  function GenField(reg: Registry, c: Context, field: AccessField): Outcome
    decreases field, 0
  {
    match field
    case FieldExpr(x) => GenExpr(reg, c, x)
    case FieldIdent(ident) => Ok(WithString(c, O.Str, ident.content))
  }

  /**
   * `Generator::if_expr`: condition, `Jif` placeholder, body, a `Jmp` with no
   * operand, the `Jif` patched to the code length, then the else branch (or
   * `Nul`), and the `Jmp` patched to the code length.
   */
  function GenIf(reg: Registry, c: Context, e: Expr): Outcome
    requires e.If?
    decreases e, 0
  {
    var d1 :- GenExpr(reg, c, e.condition);
    var (d2, jumpIf) := Placeholder(d1, O.Jif);
    var d3 :- GenExpr(reg, d2, e.body);
    var (d4, jump) := Emit(d3, CC.Op(O.Jmp, None));
    var d5 :- PatchAt(d4, jumpIf, OmaContext.Len(d4));
    var d6 :- if e.otherwise.Some? then GenExpr(reg, d5, e.otherwise.value) else Ok(Bare(d5, O.Nul));
    PatchAt(d6, jump, OmaContext.Len(d6))
  }

  /**
   * `Generator::while_expr`: condition, `Jif` placeholder, body, a `Jmp` back
   * to where the condition starts, the `Jif` patched past it, then `Nul`.
   */
  function GenWhile(reg: Registry, c: Context, e: Expr): Outcome
    requires e.While?
    decreases e, 0
  {
    var start := OmaContext.Len(c);
    var d1 :- GenExpr(reg, c, e.condition);
    var (d2, jumpIf) := Placeholder(d1, O.Jif);
    var d3 :- GenExpr(reg, d2, e.body);
    var d4 := WithUsize(d3, O.Jmp, start);
    var d5 :- PatchAt(d4, jumpIf, OmaContext.Len(d4));
    Ok(Bare(d5, O.Nul))
  }

  /** `Generator::case_expr`: the subject once, then the arms. */
  function GenCase(reg: Registry, c: Context, e: Expr): Outcome
    requires e.Case?
    decreases e, 0
  {
    var d :- GenExpr(reg, c, e.subject);
    GenArms(reg, d, e.arms, [], [])
  }

  /**
   * The arm loop. The previous arm's failure jumps land here; each arm runs
   * its pattern and body in a scope and ends in a `Jmp` placeholder. After the
   * last arm the failure jumps land on a `Nul` fallback, every arm-end jump is
   * patched past it, and `Swp Pop` drops the subject.
   */
  function GenArms(reg: Registry, c: Context, arms: seq<Arm>, failJumps: seq<nat>, endJumps: seq<nat>): Outcome
    decreases arms, 0
  {
    var d1 :- PatchAll(c, failJumps);
    if arms == [] then
      var d2 :- PatchAll(Bare(d1, O.Nul), endJumps);
      Ok(Bare(Bare(d2, O.Swp), O.Pop))
    else
      var arm := arms[0];
      assert arm in arms && arm.body < arm;
      var p :- GenCasePat(EnterScope(d1), [], [], arm.pat);
      var d3 :- GenExpr(reg, p.0, arm.body);
      var (d4, endJump) := Placeholder(d3, O.Jmp);
      if d4.localDepth == 0 then Err(Tokens.Panic)
      else GenArms(reg, ExitScope(d4).0, arms[1..], p.1, endJumps + [endJump])
  }

  /**
   * `Generator::case_expr_pat`: match the subject, reached along `path`,
   * against a pattern. An identifier binds a new slot; a tag compares the
   * subject's tag and goes on inside it; a map tests each field for Null and
   * goes on into it; a literal compares for equality. Every test adds a
   * failure jump (`Jif`, or `Jit` for a missing field) to the list.
   */
  function GenCasePat(c: Context, failJumps: seq<nat>, path: seq<seq<u8>>, p: Pat): Result<(Context, seq<nat>), Tokens.CompileError>
    decreases p, 1
  {
    match p
    case IdentPat(ident) =>
      var (d1, slot) := AddLocal(c, ident);
      var d2 := Subject(Bare(d1, O.Dup), path);
      Ok((Bare(WithUsize(d2, O.Sav, slot), O.Pop), failJumps))
    case TagPat(_, tag, inner) =>
      var d1 := Bare(Subject(Bare(c, O.Dup), path), O.Gtg);
      var (d2, fail) := Placeholder(Bare(WithString(d1, O.Str, tag.content), O.Eql), O.Jif);
      GenCasePat(d2, failJumps + [fail], path + [UTG], inner)
    case MapPat(_, pairs) => GenCasePairs(c, failJumps, path, pairs)
    case LitPat(lit) =>
      var d1 := Bare(GenLit(Subject(Bare(c, O.Dup), path), lit), O.Eql);
      var (d2, fail) := Placeholder(d1, O.Jif);
      Ok((d2, failJumps + [fail]))
    case ArrayPat(_, _) => Err(Tokens.Panic)
  }

  function GenCasePairs(c: Context, failJumps: seq<nat>, path: seq<seq<u8>>, pairs: seq<MapPatPair>): Result<(Context, seq<nat>), Tokens.CompileError>
    decreases pairs, 0
  {
    if pairs == [] then Ok((c, failJumps))
    else
      var pair := pairs[0];
      assert pair in pairs;
      match pair
      case PatField(field, pat) =>
        assert pat < pair;
        var d1 := Bare(Bare(Bare(WithString(Subject(Bare(c, O.Dup), path), O.Str, field.content), O.Get), O.Nul), O.Eql);
        var (d2, fail) := Placeholder(d1, O.Jit);
        var q :- GenCasePat(d2, failJumps + [fail], path + [field.content], pat);
        GenCasePairs(q.0, q.1, path, pairs[1..])
      case PatSpread(_) => Err(Tokens.Panic)
  }

  /** `Generator::case_expr_pat_subject`: walk the path, `Utg` for an untag, `Str name Get` for a field. */
  function Subject(c: Context, path: seq<seq<u8>>): Context
    decreases path
  {
    if path == [] then c
    else
      var d := if path[0] == UTG then Bare(c, O.Utg) else Bare(WithString(c, O.Str, path[0]), O.Get);
      Subject(d, path[1..])
  }

  /** `Generator::lit`: a number is an `Flt` of its bits, a bool `Tru`/`Fls`, a string `Str`, null `Nul`. */
  function GenLit(c: Context, lit: Lit): Context {
    match lit
    case NumberLit(_, bits) => Emit(c, CC.Op(O.Flt, Some(CC.F64(bits)))).0
    case BoolLit(_, b) => Bare(c, if b then O.Tru else O.Fls)
    case StringLit(_, text) => WithString(c, O.Str, text)
    case NullLit(_) => Bare(c, O.Nul)
  }

  /**
   * `Generator::ident`: a local of the current function (newest first), else
   * a capture through the enclosing functions, else a registry name, else an
   * unresolved identifier.
   */
  function GenIdent(reg: Registry, c: Context, ident: Ident): Outcome {
    var local := FindLocal(c.locals, ident.content);
    if local.Some? then Ok(WithUsize(c, O.Lod, local.value))
    else
      var (d, up) := ResolveUpvalue(c, ident.content);
      if up.Some? then Ok(WithUsize(d, O.Lou, up.value))
      else
        var id := FindRegistry(reg, ident.content);
        if id.Some? then Ok(WithUsize(d, O.Nal, id.value)) else Err(Unresolved(ident.span))
  }
}
