/**
 * The oma compiler's local-slot pre-pass: a walk over an expression that
 * counts how many stack slots its bindings need at once. A mutable counter
 * keeps the live count and its high-water mark; `if` branches, `case` arms
 * and `while` bodies run inside scopes that restore the live count on exit,
 * so sibling branches share their slots.
 */
module OmaLocals {
  import opened Wrappers
  import opened Source
  import opened OmaAst

  function Max(a: nat, b: nat): nat {
    if a >= b then a else b
  }

  // What the walk handles

  /**
   * The expressions the walk handles without reaching `unimplemented!`:
   * no map literal, unary operator, `for` loop or spread argument, and only
   * patterns the counter knows (no array pattern, no map spread).
   */
  predicate Countable(e: Expr)
    decreases e, 1
  {
    match e
    case Block(_, exprs, _) => AllCountable(exprs)
    case Bind(bindee, _) => Supported(bindee)
    case Call(_, arguments) => ArgsCountable(arguments)
    case If(_, _, body, otherwise) => Countable(body) && (otherwise.Some? ==> Countable(otherwise.value))
    case Case(_, _, arms) => ArmsCountable(arms)
    case While(_, _, body) => Countable(body)
    case Map(_, _) => false
    case Unary(_, _, _) => false
    case For(_, _, _, _) => false
    case _ => true
  }

  predicate AllCountable(exprs: seq<Expr>)
    decreases exprs, 0
  {
    exprs == [] || (assert exprs[0] in exprs; Countable(exprs[0]) && AllCountable(exprs[1..]))
  }

  predicate ArgsCountable(arguments: seq<CallExprArgument>)
    decreases arguments, 0
  {
    arguments == [] ||
    (arguments[0].ArgExpr? && (assert arguments[0] in arguments && arguments[0].expr < arguments[0]; Countable(arguments[0].expr))
     && ArgsCountable(arguments[1..]))
  }

  predicate ArmsCountable(arms: seq<Arm>)
    decreases arms, 0
  {
    arms == [] ||
    (Supported(arms[0].pat) && (assert arms[0] in arms && arms[0].body < arms[0]; Countable(arms[0].body))
     && ArmsCountable(arms[1..]))
  }

  // What the walk computes

  /**
   * The effect of walking an expression on the counter: the live count grows
   * by `grow` and peaks `peak` above where it started.
   */
  datatype Usage = Usage(grow: nat, peak: nat)

  const Nothing := Usage(0, 0)

  /** One walk after another: the second starts where the first left the live count. */
  function Then(u: Usage, v: Usage): Usage {
    Usage(u.grow + v.grow, Max(u.peak, u.grow + v.peak))
  }

  /** A walk inside a scope: the live count is restored, the peak stays. */
  function Scoped(u: Usage): Usage {
    Usage(0, u.peak)
  }

  /** The counter's live count and high-water mark after a walk with this usage. */
  function Run(u: Usage, locals: nat, total: nat): (nat, nat) {
    (locals + u.grow, Max(total, locals + u.peak))
  }

  /**
   * The usage of an expression: a bind adds its pattern's identifiers, blocks
   * and call arguments run in sequence, branches, arms and loop bodies are
   * scoped; every other expression (and a call's receiver, a condition, a
   * `case` subject, a bind's value) adds nothing.
   */
  function Use(e: Expr): Usage
    requires Countable(e)
    decreases e, 1
  {
    match e
    case Block(_, exprs, _) => UseAll(exprs)
    case Bind(bindee, _) => Usage(PatLocals(bindee), PatLocals(bindee))
    case Call(_, arguments) => UseArgs(arguments)
    case If(_, _, body, otherwise) =>
      Then(Scoped(Use(body)), if otherwise.Some? then Scoped(Use(otherwise.value)) else Nothing)
    case Case(_, _, arms) => UseArms(arms)
    case While(_, _, body) => Scoped(Use(body))
    case _ => Nothing
  }

  function UseAll(exprs: seq<Expr>): Usage
    requires AllCountable(exprs)
    decreases exprs, 0
  {
    if exprs == [] then Nothing
    else
      assert exprs[0] in exprs;
      Then(Use(exprs[0]), UseAll(exprs[1..]))
  }

  function UseArgs(arguments: seq<CallExprArgument>): Usage
    requires ArgsCountable(arguments)
    decreases arguments, 0
  {
    if arguments == [] then Nothing
    else
      assert arguments[0] in arguments && arguments[0].expr < arguments[0];
      Then(Use(arguments[0].expr), UseArgs(arguments[1..]))
  }

  /** One scope per arm, holding the arm's pattern and then its body. */
  function UseArms(arms: seq<Arm>): Usage
    requires ArmsCountable(arms)
    decreases arms, 0
  {
    if arms == [] then Nothing
    else
      assert arms[0] in arms && arms[0].body < arms[0];
      Then(ArmUse(arms[0]), UseArms(arms[1..]))
  }

  function ArmUse(arm: Arm): Usage
    requires Supported(arm.pat) && Countable(arm.body)
    decreases arm, 0
  {
    var n := PatLocals(arm.pat);
    Scoped(Then(Usage(n, n), Use(arm.body)))
  }

  /** Running two walks in turn is running their sequence. */
  lemma RunThen(u: Usage, v: Usage, locals: nat, total: nat)
    ensures var (l, t) := Run(u, locals, total); Run(v, l, t) == Run(Then(u, v), locals, total)
  {
  }

  // The counter

  /** `Context` of the pre-pass: the live count, its high-water mark and the saved counts of open scopes. */
  class Context {
    var locals: nat
    var totalLocals: nat
    var scopes: seq<nat>

    /** The high-water mark covers the live count and every saved one. */
    predicate Valid()
      reads this
    {
      locals <= totalLocals && forall i :: 0 <= i < |scopes| ==> scopes[i] <= totalLocals
    }

    constructor ()
      ensures Valid()
      ensures locals == 0 && totalLocals == 0 && scopes == []
    {
      locals := 0;
      totalLocals := 0;
      scopes := [];
    }

    /** `add`: raise the live count and the high-water mark with it. */
    method Add(count: nat)
      requires Valid()
      modifies this
      ensures Valid()
      ensures locals == old(locals) + count
      ensures totalLocals == Max(old(totalLocals), locals)
      ensures scopes == old(scopes)
    {
      locals := locals + count;
      if locals > totalLocals {
        totalLocals := locals;
      }
    }

    /** `enter_scope`: save the live count. */
    method EnterScope()
      requires Valid()
      modifies this
      ensures Valid()
      ensures scopes == old(scopes) + [old(locals)]
      ensures locals == old(locals) && totalLocals == old(totalLocals)
    {
      scopes := scopes + [locals];
    }

    /** `exit_scope`: restore the live count saved last; the source's `unwrap` demands an open scope. */
    method ExitScope()
      requires Valid() && |scopes| > 0
      modifies this
      ensures Valid()
      ensures locals == old(scopes[|scopes| - 1]) && scopes == old(scopes[..|scopes| - 1])
      ensures totalLocals == old(totalLocals)
    {
      locals := scopes[|scopes| - 1];
      scopes := scopes[..|scopes| - 1];
    }
  }

  /** `count_expr_locals`: the high-water mark of a walk from an empty counter. */
  method CountExprLocals(e: Expr) returns (count: nat)
    requires Countable(e)
    ensures count == Use(e).peak
  {
    var ctx := new Context();
    CountExprLocalsWithCtx(ctx, e);
    count := ctx.totalLocals;
  }

  /** `count_expr_locals_with_ctx`: the walk, moving the counter as `Use` says. */
  method CountExprLocalsWithCtx(ctx: Context, e: Expr)
    requires ctx.Valid() && Countable(e)
    modifies ctx
    ensures ctx.Valid()
    ensures (ctx.locals, ctx.totalLocals) == Run(Use(e), old(ctx.locals), old(ctx.totalLocals))
    ensures ctx.scopes == old(ctx.scopes)
    decreases e, 0
  {
    match e {
      case Block(_, exprs, _) =>
        CountAll(ctx, exprs);
      case Bind(bindee, _) =>
        CountPatLocals(ctx, bindee);
      case Call(_, arguments) =>
        CountArgs(ctx, arguments);
      case If(_, _, body, otherwise) =>
        var l, t := ctx.locals, ctx.totalLocals;
        CountScoped(ctx, body);
        if otherwise.Some? {
          CountScoped(ctx, otherwise.value);
          RunThen(Scoped(Use(body)), Scoped(Use(otherwise.value)), l, t);
        }
      case Case(_, _, arms) =>
        CountArms(ctx, arms);
      case While(_, _, body) =>
        CountScoped(ctx, body);
      case _ =>
    }
  }

  /** A branch or loop body, counted inside a scope of its own. */
  method CountScoped(ctx: Context, body: Expr)
    requires ctx.Valid() && Countable(body)
    modifies ctx
    ensures ctx.Valid()
    ensures (ctx.locals, ctx.totalLocals) == Run(Scoped(Use(body)), old(ctx.locals), old(ctx.totalLocals))
    ensures ctx.scopes == old(ctx.scopes)
    decreases body, 1
  {
    ctx.EnterScope();
    CountExprLocalsWithCtx(ctx, body);
    ctx.ExitScope();
  }

  /** The loop over a block's expressions, in order. */
  method CountAll(ctx: Context, exprs: seq<Expr>)
    requires ctx.Valid() && AllCountable(exprs)
    modifies ctx
    ensures ctx.Valid()
    ensures (ctx.locals, ctx.totalLocals) == Run(UseAll(exprs), old(ctx.locals), old(ctx.totalLocals))
    ensures ctx.scopes == old(ctx.scopes)
    decreases exprs, 0
  {
    hide Countable, Use;
    var i := 0;
    while i < |exprs|
      invariant 0 <= i <= |exprs| && AllCountable(exprs[i..])
      invariant ctx.Valid() && ctx.scopes == old(ctx.scopes)
      invariant Run(UseAll(exprs[i..]), ctx.locals, ctx.totalLocals) == Run(UseAll(exprs), old(ctx.locals), old(ctx.totalLocals))
    {
      AllStep(exprs, i);
      var l, t := ctx.locals, ctx.totalLocals;
      CountExprLocalsWithCtx(ctx, exprs[i]);
      RunThen(Use(exprs[i]), UseAll(exprs[i + 1..]), l, t);
      i := i + 1;
    }
  }

  /** The loop over a call's arguments, in order. */
  method CountArgs(ctx: Context, arguments: seq<CallExprArgument>)
    requires ctx.Valid() && ArgsCountable(arguments)
    modifies ctx
    ensures ctx.Valid()
    ensures (ctx.locals, ctx.totalLocals) == Run(UseArgs(arguments), old(ctx.locals), old(ctx.totalLocals))
    ensures ctx.scopes == old(ctx.scopes)
    decreases arguments, 0
  {
    hide Countable, Use;
    var i := 0;
    while i < |arguments|
      invariant 0 <= i <= |arguments| && ArgsCountable(arguments[i..])
      invariant ctx.Valid() && ctx.scopes == old(ctx.scopes)
      invariant Run(UseArgs(arguments[i..]), ctx.locals, ctx.totalLocals) == Run(UseArgs(arguments), old(ctx.locals), old(ctx.totalLocals))
    {
      ArgsStep(arguments, i);
      var l, t := ctx.locals, ctx.totalLocals;
      CountExprLocalsWithCtx(ctx, arguments[i].expr);
      RunThen(Use(arguments[i].expr), UseArgs(arguments[i + 1..]), l, t);
      i := i + 1;
    }
  }

  lemma AllStep(exprs: seq<Expr>, i: nat)
    requires i < |exprs| && AllCountable(exprs[i..])
    ensures exprs[i] in exprs
    ensures Countable(exprs[i]) && AllCountable(exprs[i + 1..])
    ensures UseAll(exprs[i..]) == Then(Use(exprs[i]), UseAll(exprs[i + 1..]))
  {
    assert exprs[i..][1..] == exprs[i + 1..];
    assert exprs[i] in exprs;
  }

  lemma ArgsStep(arguments: seq<CallExprArgument>, i: nat)
    requires i < |arguments| && ArgsCountable(arguments[i..])
    ensures arguments[i].ArgExpr? && arguments[i] in arguments && arguments[i].expr < arguments[i]
    ensures Countable(arguments[i].expr) && ArgsCountable(arguments[i + 1..])
    ensures UseArgs(arguments[i..]) == Then(Use(arguments[i].expr), UseArgs(arguments[i + 1..]))
  {
    assert arguments[i..][1..] == arguments[i + 1..];
    assert arguments[i] in arguments && arguments[i].expr < arguments[i];
  }

  lemma ArmsStep(arms: seq<Arm>, i: nat)
    requires i < |arms| && ArmsCountable(arms[i..])
    ensures arms[i] in arms && arms[i].body < arms[i]
    ensures Supported(arms[i].pat) && Countable(arms[i].body) && ArmsCountable(arms[i + 1..])
    ensures UseArms(arms[i..]) == Then(ArmUse(arms[i]), UseArms(arms[i + 1..]))
  {
    assert arms[i..][1..] == arms[i + 1..];
    assert arms[i] in arms && arms[i].body < arms[i];
  }

  /** The loop over a `case`'s arms: each arm's pattern and body inside a scope of its own. */
  method CountArms(ctx: Context, arms: seq<Arm>)
    requires ctx.Valid() && ArmsCountable(arms)
    modifies ctx
    ensures ctx.Valid()
    ensures (ctx.locals, ctx.totalLocals) == Run(UseArms(arms), old(ctx.locals), old(ctx.totalLocals))
    ensures ctx.scopes == old(ctx.scopes)
    decreases arms, 0
  {
    hide Countable, Supported, PatLocals, Use, ArmUse;
    var i := 0;
    while i < |arms|
      invariant 0 <= i <= |arms| && ArmsCountable(arms[i..])
      invariant ctx.Valid() && ctx.scopes == old(ctx.scopes)
      invariant Run(UseArms(arms[i..]), ctx.locals, ctx.totalLocals) == Run(UseArms(arms), old(ctx.locals), old(ctx.totalLocals))
    {
      ArmsStep(arms, i);
      var l, t := ctx.locals, ctx.totalLocals;
      CountArm(ctx, arms[i]);
      RunThen(ArmUse(arms[i]), UseArms(arms[i + 1..]), l, t);
      i := i + 1;
    }
  }

  /** One arm: its pattern's slots and then its body's, inside a scope. */
  method CountArm(ctx: Context, arm: Arm)
    requires ctx.Valid() && Supported(arm.pat) && Countable(arm.body)
    modifies ctx
    ensures ctx.Valid()
    ensures (ctx.locals, ctx.totalLocals) == Run(ArmUse(arm), old(ctx.locals), old(ctx.totalLocals))
    ensures ctx.scopes == old(ctx.scopes)
    decreases arm, 0
  {
    hide Countable, Supported, PatLocals, Use;
    var l, t := ctx.locals, ctx.totalLocals;
    var n := PatLocals(arm.pat);
    ctx.EnterScope();
    CountPatLocals(ctx, arm.pat);
    CountExprLocalsWithCtx(ctx, arm.body);
    ctx.ExitScope();
    RunThen(Usage(n, n), Use(arm.body), l, t);
  }

  /**
   * `count_pat_locals`: one slot per identifier, through tags, summed over a
   * map pattern's pairs, none for a literal.
   */
  method CountPatLocals(ctx: Context, p: Pat)
    requires ctx.Valid() && Supported(p)
    modifies ctx
    ensures ctx.Valid()
    ensures ctx.locals == old(ctx.locals) + PatLocals(p)
    ensures ctx.totalLocals == Max(old(ctx.totalLocals), ctx.locals)
    ensures ctx.scopes == old(ctx.scopes)
    decreases p
  {
    match p {
      case IdentPat(_) =>
        ctx.Add(1);
      case TagPat(_, _, inner) =>
        CountPatLocals(ctx, inner);
      case MapPat(_, pairs) =>
        var i := 0;
        while i < |pairs|
          invariant 0 <= i <= |pairs| && PairsSupported(pairs[i..])
          invariant ctx.Valid() && ctx.scopes == old(ctx.scopes)
          invariant ctx.locals + PairLocals(pairs[i..]) == old(ctx.locals) + PairLocals(pairs)
          invariant ctx.totalLocals == Max(old(ctx.totalLocals), ctx.locals)
        {
          assert pairs[i..][1..] == pairs[i + 1..];
          assert pairs[i] in pairs && pairs[i].pat < pairs[i];
          CountPatLocals(ctx, pairs[i].pat);
          i := i + 1;
        }
      case LitPat(_) =>
    }
  }

  // What the count means

  /** A walk never leaves more slots live than it used at its peak. */
  lemma {:induction false} GrowWithinPeak(e: Expr)
    requires Countable(e)
    ensures Use(e).grow <= Use(e).peak
    decreases e, 1
  {
    match e
    case Block(_, exprs, _) => AllGrowWithinPeak(exprs);
    case Call(_, arguments) => ArgsGrowWithinPeak(arguments);
    case Case(_, _, arms) => ArmsGrowWithinPeak(arms);
    case _ =>
  }

  lemma {:induction false} AllGrowWithinPeak(exprs: seq<Expr>)
    requires AllCountable(exprs)
    ensures UseAll(exprs).grow <= UseAll(exprs).peak
    decreases exprs, 0
  {
    if exprs != [] {
      assert exprs[0] in exprs;
      AllGrowWithinPeak(exprs[1..]);
    }
  }

  lemma {:induction false} ArgsGrowWithinPeak(arguments: seq<CallExprArgument>)
    requires ArgsCountable(arguments)
    ensures UseArgs(arguments).grow <= UseArgs(arguments).peak
    decreases arguments, 0
  {
    if arguments != [] {
      assert arguments[0] in arguments && arguments[0].expr < arguments[0];
      GrowWithinPeak(arguments[0].expr);
      ArgsGrowWithinPeak(arguments[1..]);
    }
  }

  lemma {:induction false} ArmsGrowWithinPeak(arms: seq<Arm>)
    requires ArmsCountable(arms)
    ensures UseArms(arms).grow == 0
    decreases arms, 0
  {
    if arms != [] {
      ArmsGrowWithinPeak(arms[1..]);
    }
  }

  /**
   * A bind needs one slot per identifier its pattern binds, as
   * `Pat::idents` lists them.
   */
  lemma BindNeedsItsIdents(bindee: Pat, value: Expr)
    requires Supported(bindee)
    ensures Countable(Bind(bindee, value))
    ensures Idents(bindee).Some? && Use(Bind(bindee, value)).peak == |Idents(bindee).value|
  {
    IdentsCount(bindee);
  }

  /** The two branches of an `if` share their slots: the `if` needs the larger of the two. */
  lemma BranchesShareSlots(span: Span, condition: Expr, body: Expr, otherwise: Expr)
    requires Countable(body) && Countable(otherwise)
    ensures Countable(If(span, condition, body, Some(otherwise)))
    ensures Use(If(span, condition, body, Some(otherwise))).grow == 0
    ensures Use(If(span, condition, body, Some(otherwise))).peak == Max(Use(body).peak, Use(otherwise).peak)
  {
  }

  /** An arm the walk handles. */
  predicate ArmCountable(arm: Arm) {
    Supported(arm.pat) && Countable(arm.body)
  }

  /** What one `case` arm needs: its pattern's slots and then its body's. */
  function ArmNeed(arm: Arm): nat
    requires ArmCountable(arm)
  {
    PatLocals(arm.pat) + Use(arm.body).peak
  }

  /**
   * The arms of a `case` share their slots: the `case` needs what its
   * neediest arm needs, and leaves no slot live.
   */
  lemma {:induction false} ArmsShareSlots(arms: seq<Arm>)
    requires ArmsCountable(arms)
    ensures UseArms(arms).grow == 0
    ensures forall i :: 0 <= i < |arms| ==> ArmCountable(arms[i]) && ArmNeed(arms[i]) <= UseArms(arms).peak
    ensures arms == [] ==> UseArms(arms).peak == 0
    ensures arms != [] ==> exists i :: 0 <= i < |arms| && ArmCountable(arms[i]) && ArmNeed(arms[i]) == UseArms(arms).peak
    decreases arms, 0
  {
    if arms != [] {
      var rest := arms[1..];
      ArmsHead(arms);
      ArmsShareSlots(rest);
      var peak, restPeak := UseArms(arms).peak, UseArms(rest).peak;
      ArmsBelow(arms, peak);
      ArmsAttain(arms, peak, restPeak);
    }
  }

  /** The first arm and every later one need at most `peak`, so all arms do. */
  lemma ArmsBelow(arms: seq<Arm>, peak: nat)
    requires arms != [] && ArmCountable(arms[0]) && ArmNeed(arms[0]) <= peak
    requires forall i :: 0 <= i < |arms[1..]| ==> ArmCountable(arms[1..][i]) && ArmNeed(arms[1..][i]) <= peak
    ensures forall i :: 0 <= i < |arms| ==> ArmCountable(arms[i]) && ArmNeed(arms[i]) <= peak
  {
    hide ArmCountable, ArmNeed;
    forall i | 0 <= i < |arms|
      ensures ArmCountable(arms[i]) && ArmNeed(arms[i]) <= peak
    {
      if i > 0 {
        assert arms[i] == arms[1..][i - 1];
      }
    }
  }

  /** The larger of the first arm's need and a need some later arm attains is attained by some arm. */
  lemma ArmsAttain(arms: seq<Arm>, peak: nat, restPeak: nat)
    requires arms != [] && ArmCountable(arms[0]) && peak == Max(ArmNeed(arms[0]), restPeak)
    requires arms[1..] == [] ==> restPeak == 0
    requires arms[1..] != [] ==> exists i :: 0 <= i < |arms[1..]| && ArmCountable(arms[1..][i]) && ArmNeed(arms[1..][i]) == restPeak
    ensures exists i :: 0 <= i < |arms| && ArmCountable(arms[i]) && ArmNeed(arms[i]) == peak
  {
    hide ArmCountable, ArmNeed;
    var rest := arms[1..];
    if rest == [] || ArmNeed(arms[0]) >= restPeak {
      assert ArmNeed(arms[0]) == peak;
    } else {
      var j :| 0 <= j < |rest| && ArmCountable(rest[j]) && ArmNeed(rest[j]) == restPeak;
      assert arms[j + 1] == rest[j];
    }
  }

  /** The first arm's walk, then the rest: the arm needs its pattern's slots and its body's peak, and leaves none live. */
  lemma ArmsHead(arms: seq<Arm>)
    requires ArmsCountable(arms) && arms != []
    ensures ArmCountable(arms[0]) && ArmsCountable(arms[1..])
    ensures UseArms(arms).grow == UseArms(arms[1..]).grow
    ensures UseArms(arms).peak == Max(ArmNeed(arms[0]), UseArms(arms[1..]).peak)
  {
    assert arms[0] in arms && arms[0].body < arms[0];
    GrowWithinPeak(arms[0].body);
  }

  /**
   * Binds in sequence accumulate: a block of binds needs, and leaves live,
   * the sum of its patterns' identifiers.
   */
  function BoundBy(exprs: seq<Expr>): nat
    requires forall i :: 0 <= i < |exprs| ==> exprs[i].Bind? && Supported(exprs[i].bindee)
  {
    if exprs == [] then 0 else PatLocals(exprs[0].bindee) + BoundBy(exprs[1..])
  }

  lemma {:induction false} BindsAccumulate(exprs: seq<Expr>)
    requires forall i :: 0 <= i < |exprs| ==> exprs[i].Bind? && Supported(exprs[i].bindee)
    ensures AllCountable(exprs)
    ensures UseAll(exprs) == Usage(BoundBy(exprs), BoundBy(exprs))
  {
    hide Supported, PatLocals;
    if exprs != [] {
      BindsAccumulate(exprs[1..]);
    }
  }
}
