/**
 * `if` lowering as evidently intended: the body's end `Jmp` is emitted with
 * the same `usize::MAX` placeholder the condition's `Jif` gets (and that
 * `case` gives its arm-end jumps), so its size class is 3 and the patch keeps
 * the whole end offset. `GenExpr` itself keeps the lowering as written.
 */
module OmaGenIfFixed {
  import opened Wrappers
  import opened Bytes
  import opened OmaAst
  import opened OmaContext
  import opened OmaGenSpec
  import opened OmaGenFrames
  import opened OmaGenGrowth
  import opened OmaGenJumps
  import O = Opcodes
  import ShuChunk
  import CC = CompilerChunk

  /** `Generator::if_expr` with a placeholder operand on the end `Jmp`. */
  function GenIfFixed(reg: Registry, c: Context, e: Expr): Outcome
    requires e.If?
  {
    var d1 :- GenExpr(reg, c, e.condition);
    var (d2, jumpIf) := Placeholder(d1, O.Jif);
    var d3 :- GenExpr(reg, d2, e.body);
    var (d4, jump) := Placeholder(d3, O.Jmp);
    var d5 :- PatchAt(d4, jumpIf, OmaContext.Len(d4));
    var d6 :- if e.otherwise.Some? then GenExpr(reg, d5, e.otherwise.value) else Ok(Bare(d5, O.Nul));
    PatchAt(d6, jump, OmaContext.Len(d6))
  }

  /** The end of the body: a placeholder `Jmp`, then the `Jif` patched just past it. */
  lemma FixedMiddle(d3: Context, jif: nat)
    requires SlotAt(d3.chunk, jif, O.Jif, 3) && jif + 9 <= |d3.chunk.code|
    ensures var jmp := |d3.chunk.code|;
      var d5 := PatchAt(Placeholder(d3, O.Jmp).0, jif, jmp + 9);
      d5.Ok? && |d5.value.chunk.code| == jmp + 9 &&
      SlotAt(d5.value.chunk, jmp, O.Jmp, 3) && SlotAt(d5.value.chunk, jif, O.Jif, 3) &&
      JumpAt(d5.value.chunk, jif, O.Jif, (jmp + 9) % U64_LIMIT)
  {
    hide Placeholder, PatchAt, SameOn;
    var jmp := |d3.chunk.code|;
    var d4 := Placeholder(d3, O.Jmp).0;
    PlaceholderSlot(d3, O.Jmp);
    PlaceholderMoves(d3, O.Jmp);
    ExtendsSameOn(d3, d4, jif, jif + 9);
    SlotKept(d3.chunk, d4.chunk, jif, O.Jif, 3);
    SlotPatched(d4, jif, O.Jif, 3, jmp + 9);
    Pow256Widths();
    var d5 := PatchAt(d4, jif, jmp + 9).value;
    SameOnWithin(d4.chunk.code, d5.chunk.code, jif + 9, |d4.chunk.code|, jmp, jmp + 9);
    SlotKept(d4.chunk, d5.chunk, jmp, O.Jmp, 3);
  }

  /**
   * The `Jif` at jif lands just past the `Jmp` at jmp, which lands on the
   * end of the code: exactly, for every code length a `usize` holds.
   */
  predicate FixedLayout(ch: ShuChunk.Chunk, jif: nat, jmp: nat) {
    var n := |ch.code|;
    jif + 9 <= jmp && jmp + 9 <= n &&
    JumpAt(ch, jif, O.Jif, (jmp + 9) % U64_LIMIT) &&
    JumpAt(ch, jmp, O.Jmp, n % U64_LIMIT) &&
    (n < U64_LIMIT ==> JumpAt(ch, jmp, O.Jmp, n))
  }

  /** `GenIfFixed` past the condition and the body. */
  lemma FixedUnfold(reg: Registry, c: Context, e: Expr, d1: Context, d3: Context)
    requires e.If? && GenExpr(reg, c, e.condition) == Ok(d1)
    requires GenExpr(reg, Placeholder(d1, O.Jif).0, e.body) == Ok(d3)
    ensures var d4 := Placeholder(d3, O.Jmp).0;
      var r := GenIfFixed(reg, c, e);
      var d5 := PatchAt(d4, |d1.chunk.code|, |d4.chunk.code|);
      (d5.Err? ==> r.Err?) &&
      (d5.Ok? ==>
        var d6 := if e.otherwise.Some? then GenExpr(reg, d5.value, e.otherwise.value) else Ok(Bare(d5.value, O.Nul));
        (d6.Err? ==> r.Err?) && (d6.Ok? ==> r == PatchAt(d6.value, |d3.chunk.code|, |d6.value.chunk.code|)))
  {
    hide GenExpr, PatchAt, Bare;
  }

  /** Patching the end `Jmp` once the else branch (or `Nul`) is in place. */
  lemma FixedEnd(d5: Context, d6: Context, jif: nat, jmp: nat)
    requires Reaches(d5, d6) && jif + 9 <= jmp && jmp + 9 <= |d5.chunk.code|
    requires SlotAt(d5.chunk, jmp, O.Jmp, 3) && SlotAt(d5.chunk, jif, O.Jif, 3)
    requires JumpAt(d5.chunk, jif, O.Jif, (jmp + 9) % U64_LIMIT)
    ensures var r := PatchAt(d6, jmp, |d6.chunk.code|);
      r.Ok? && |r.value.chunk.code| == |d6.chunk.code| && FixedLayout(r.value.chunk, jif, jmp)
  {
    hide PatchAt, SameOn, SlotAt;
    SlotsKept(d5, d6, jif, jmp, 3, (jmp + 9) % U64_LIMIT);
    IfEnd(d6, jif, jmp, 3, (jmp + 9) % U64_LIMIT);
    Pow256Widths();
    ReachesLen(d5, d6);
  }

  /**
   * With the placeholder, the `if` still fails only when its else branch
   * does, the `Jif` lands on the else branch just past the `Jmp`, and the
   * `Jmp` lands on the end of the code for every code length a `usize` holds.
   */
  lemma FixedIfJumps(reg: Registry, c: Context, e: Expr, d1: Context, d3: Context)
    requires e.If? && GenExpr(reg, c, e.condition) == Ok(d1)
    requires GenExpr(reg, Placeholder(d1, O.Jif).0, e.body) == Ok(d3)
    ensures var jif := |d1.chunk.code|;
      var jmp := |d3.chunk.code|;
      var d5 := PatchAt(Placeholder(d3, O.Jmp).0, jif, jmp + 9);
      d5.Ok? &&
      var d6 := if e.otherwise.Some? then GenExpr(reg, d5.value, e.otherwise.value) else Ok(Bare(d5.value, O.Nul));
      var r := GenIfFixed(reg, c, e);
      (r.Ok? <==> d6.Ok?) &&
      (r.Ok? ==> |r.value.chunk.code| == |d6.value.chunk.code| && FixedLayout(r.value.chunk, jif, jmp))
  {
    hide GenExpr, GenIfFixed, Placeholder, Emit, PatchAt, Bare, Extends, SameFrames, Moves, SameOn, SlotAt;
    var jif := |d1.chunk.code|;
    var jmp := |d3.chunk.code|;
    var d2 := Placeholder(d1, O.Jif).0;
    PlaceholderSlot(d1, O.Jif);
    ExprGrows(reg, d2, e.body);
    ReachesLen(d2, d3);
    ExtendsSameOn(d2, d3, jif, jif + 9);
    SlotKept(d2.chunk, d3.chunk, jif, O.Jif, 3);
    FixedMiddle(d3, jif);
    PlaceholderSlot(d3, O.Jmp);
    var d5 := PatchAt(Placeholder(d3, O.Jmp).0, jif, jmp + 9).value;
    var d6 := if e.otherwise.Some? then GenExpr(reg, d5, e.otherwise.value) else Ok(Bare(d5, O.Nul));
    if e.otherwise.Some? {
      ExprGrows(reg, d5, e.otherwise.value);
    } else {
      BareMoves(d5, O.Nul);
      MovesFrames(d5, Bare(d5, O.Nul));
    }
    FixedUnfold(reg, c, e, d1, d3);
    if d6.Ok? {
      FixedEnd(d5, d6.value, jif, jmp);
    }
  }
}
