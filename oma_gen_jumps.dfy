/**
 * Where the jumps of `if` and `while` land, read back from the finished
 * code with the runtime's decoder.
 */
module OmaGenJumps {
  import opened Wrappers
  import opened Bytes
  import opened OmaAst
  import opened OmaContext
  import opened OmaGenSpec
  import opened OmaGenFrames
  import opened OmaGenGrowth
  import O = Opcodes
  import ShuChunk
  import CC = CompilerChunk

  /** The runtime decodes, at offset, the instruction `code` with operand `target`. */
  predicate JumpAt(ch: ShuChunk.Chunk, offset: nat, code: O.Opcode, target: nat) {
    var d := ShuChunk.OpAt(ch, offset);
    d.Some? && ShuChunk.OpcodeOf(d.value.byte) == Some(code) && d.value.operand == target
  }

  /** At offset sits an instruction byte for `code` of size class `cls`, with all its operand bytes. */
  predicate SlotAt(ch: ShuChunk.Chunk, offset: nat, code: O.Opcode, cls: nat) {
    cls <= 3 && O.HasOperand(code) && offset + 1 + ShuChunk.Width(cls) <= |ch.code| &&
    ch.code[offset] as nat == 4 * O.Code(code) + cls
  }

  /** Two codes hold the same bytes from lo up to hi. */
  predicate SameOn(a: seq<u8>, b: seq<u8>, lo: nat, hi: nat) {
    lo <= hi <= |a| && hi <= |b| && forall i :: lo <= i < hi ==> a[i] == b[i]
  }

  lemma SameOnTrans(a: seq<u8>, b: seq<u8>, c: seq<u8>, lo: nat, hi: nat)
    requires SameOn(a, b, lo, hi) && SameOn(b, c, lo, hi)
    ensures SameOn(a, c, lo, hi)
  {
  }

  lemma ExtendsSameOn(x: Context, y: Context, lo: nat, hi: nat)
    requires Extends(x, y) && lo <= hi <= |x.chunk.code|
    ensures SameOn(x.chunk.code, y.chunk.code, lo, hi)
  {
  }

  /** An instruction byte of a known opcode and class announces that class's width. */
  lemma SlotSize(ch: ShuChunk.Chunk, offset: nat, code: O.Opcode, cls: nat)
    requires SlotAt(ch, offset, code, cls)
    ensures ShuChunk.OpcodeOf(ch.code[offset]) == Some(code)
    ensures ch.code[offset] as nat % 4 == cls
    ensures ShuChunk.Size(ch.code[offset]) == ShuChunk.Width(cls)
  {
    var b := ch.code[offset];
    assert ShuChunk.RawCode(b) == O.Code(code);
    O.FromCodeOfCode(code);
  }

  lemma SlotKept(a: ShuChunk.Chunk, b: ShuChunk.Chunk, offset: nat, code: O.Opcode, cls: nat)
    requires SlotAt(a, offset, code, cls) && SameOn(a.code, b.code, offset, offset + 1 + ShuChunk.Width(cls))
    ensures SlotAt(b, offset, code, cls)
  {
  }

  /** The decoded instruction depends only on its own bytes. */
  lemma JumpKept(a: ShuChunk.Chunk, b: ShuChunk.Chunk, offset: nat, code: O.Opcode, target: nat)
    requires JumpAt(a, offset, code, target)
    requires SameOn(a.code, b.code, offset, offset + 1 + ShuChunk.Size(a.code[offset]))
    ensures JumpAt(b, offset, code, target)
  {
    var n := ShuChunk.Size(a.code[offset]);
    assert a.code[offset + 1..offset + 1 + n] == b.code[offset + 1..offset + 1 + n];
  }

  /** A placeholder jump is a class-3 slot: eight operand bytes. */
  lemma PlaceholderSlot(d: Context, code: O.Opcode)
    requires O.HasOperand(code)
    ensures var (d2, offset) := Placeholder(d, code);
      offset == |d.chunk.code| && SlotAt(d2.chunk, offset, code, 3) && |d2.chunk.code| == offset + 9
  {
    var op := CC.Op(code, Some(CC.Usize(USIZE_MAX)));
    var (v, s) := CC.EmitFields(op, |d.chunk.data|);
    assert s == 3;
    var d2 := Placeholder(d, code).0;
    assert d2.chunk.code == d.chunk.code + CC.Encode(code, v, s);
    assert d2.chunk.code[|d.chunk.code|] == CC.Encode(code, v, s)[0];
  }

  /** A jump emitted with no operand is a class-0 slot: a single operand byte. */
  lemma BareJumpSlot(d: Context, code: O.Opcode)
    requires O.HasOperand(code)
    ensures var (d4, offset) := Emit(d, CC.Op(code, None));
      offset == |d.chunk.code| && SlotAt(d4.chunk, offset, code, 0) && |d4.chunk.code| == offset + 2
  {
    var op := CC.Op(code, None);
    var d4 := Emit(d, op).0;
    assert d4.chunk.code == d.chunk.code + CC.Encode(code, 0, 0);
    assert d4.chunk.code[|d.chunk.code|] == CC.Encode(code, 0, 0)[0];
  }

  /** A jump emitted with a `usize` target decodes to that target when it is a u64. */
  lemma UsizeJump(d: Context, code: O.Opcode, n: nat)
    requires O.HasOperand(code)
    ensures var d4 := WithUsize(d, code, n);
      |d4.chunk.code| == |d.chunk.code| + 1 + ShuChunk.Width(CC.SizeClass(n)) &&
      SameOn(d.chunk.code, d4.chunk.code, 0, |d.chunk.code|) &&
      SlotAt(d4.chunk, |d.chunk.code|, code, CC.SizeClass(n)) &&
      (IsU64(n) ==> JumpAt(d4.chunk, |d.chunk.code|, code, n))
  {
    var s := CC.SizeClass(n);
    var d4 := WithUsize(d, code, n);
    assert d4.chunk.code == d.chunk.code + CC.Encode(code, n, s) + [];
    CC.DecodeEncoded(d4.chunk.data, d.chunk.code, code, n, s, []);
    assert d4.chunk.code[|d.chunk.code|] == CC.Encode(code, n, s)[0];
    if IsU64(n) {
      ModUnique(n, Pow256(ShuChunk.Width(s)), 0, n);
    }
  }

  /**
   * Patching a slot always fits, and the slot then decodes to the target
   * masked to its width; every byte outside the operand keeps its value.
   */
  lemma SlotPatched(d: Context, offset: nat, code: O.Opcode, cls: nat, target: nat)
    requires SlotAt(d.chunk, offset, code, cls)
    ensures var p := PatchAt(d, offset, target);
      var w := ShuChunk.Width(cls);
      p.Ok? && JumpAt(p.value.chunk, offset, code, target % Pow256(w)) &&
      |p.value.chunk.code| == |d.chunk.code| &&
      SameOn(d.chunk.code, p.value.chunk.code, 0, offset + 1) &&
      SameOn(d.chunk.code, p.value.chunk.code, offset + 1 + w, |d.chunk.code|) &&
      p.value.parent == d.parent && p.value.localDepth == d.localDepth && p.value.locals == d.locals
  {
    SlotSize(d.chunk, offset, code, cls);
    var w := ShuChunk.Width(cls);
    assert CC.PatchFits(d.chunk, offset);
    var p := PatchAt(d, offset, target);
    var before := d.chunk.code;
    var after := p.value.chunk.code;
    assert after == before[..offset + 1] + LE(target, w) + before[offset + 1 + w..] by {
      assert after[..offset + 1] == before[..offset + 1];
      assert after[offset + 1..offset + 1 + w] == LE(target, w);
      assert after == after[..offset + 1] + after[offset + 1..offset + 1 + w] + after[offset + 1 + w..];
    }
    CC.DecodePatched(p.value.chunk.data, before, offset, target);
    forall i | 0 <= i < offset + 1
      ensures after[i] == before[i]
    {
      assert after[i] == after[..offset + 1][i];
    }
    forall i | offset + 1 + w <= i < |before|
      ensures after[i] == before[i]
    {
      assert after[i] == after[offset + 1 + w..][i - (offset + 1 + w)];
    }
  }

  lemma SameOnWithin(a: seq<u8>, b: seq<u8>, lo: nat, hi: nat, lo': nat, hi': nat)
    requires SameOn(a, b, lo, hi) && lo <= lo' <= hi' <= hi
    ensures SameOn(a, b, lo', hi')
  {
  }

  /** An instruction without operand ends the code as a single byte. */
  lemma BareLast(d: Context, code: O.Opcode)
    requires !O.HasOperand(code)
    ensures var d6 := Bare(d, code);
      |d6.chunk.code| == |d.chunk.code| + 1 && ShuChunk.OpcodeOf(d6.chunk.code[|d.chunk.code|]) == Some(code)
  {
    var d6 := Bare(d, code);
    assert d6.chunk.code == d.chunk.code + CC.Encode(code, 0, 0);
    var b := d6.chunk.code[|d.chunk.code|];
    assert b == CC.Encode(code, 0, 0)[0];
    assert ShuChunk.RawCode(b) == O.Code(code);
    O.FromCodeOfCode(code);
  }

  /** The end of an `if` body: its `Jmp`, then the condition's `Jif` patched to land just past it. */
  lemma IfMiddle(d3: Context, jif: nat)
    requires SlotAt(d3.chunk, jif, O.Jif, 3) && jif + 9 <= |d3.chunk.code|
    ensures var jmp := |d3.chunk.code|;
      var d5 := PatchAt(Emit(d3, CC.Op(O.Jmp, None)).0, jif, jmp + 2);
      d5.Ok? && |d5.value.chunk.code| == jmp + 2 &&
      SlotAt(d5.value.chunk, jmp, O.Jmp, 0) && SlotAt(d5.value.chunk, jif, O.Jif, 3) &&
      JumpAt(d5.value.chunk, jif, O.Jif, (jmp + 2) % U64_LIMIT)
  {
    hide Emit, PatchAt, SameOn;
    var jmp := |d3.chunk.code|;
    var d4 := Emit(d3, CC.Op(O.Jmp, None)).0;
    BareJumpSlot(d3, O.Jmp);
    EmitMoves(d3, CC.Op(O.Jmp, None));
    ExtendsSameOn(d3, d4, jif, jif + 9);
    SlotKept(d3.chunk, d4.chunk, jif, O.Jif, 3);
    SlotPatched(d4, jif, O.Jif, 3, jmp + 2);
    Pow256Widths();
    var d5 := PatchAt(d4, jif, jmp + 2).value;
    SameOnWithin(d4.chunk.code, d5.chunk.code, jif + 9, |d4.chunk.code|, jmp, jmp + 2);
    SlotKept(d4.chunk, d5.chunk, jmp, O.Jmp, 0);
  }

  /** Slots and decoded jumps inside c survive everything that only appends. */
  lemma SlotsKept(c: Context, f: Context, jif: nat, jmp: nat, cls: nat, target: nat)
    requires Extends(c, f) && jif + 9 <= jmp && cls <= 3 && jmp + 1 + ShuChunk.Width(cls) <= |c.chunk.code|
    requires SlotAt(c.chunk, jmp, O.Jmp, cls) && SlotAt(c.chunk, jif, O.Jif, 3) && JumpAt(c.chunk, jif, O.Jif, target)
    ensures SlotAt(f.chunk, jmp, O.Jmp, cls) && SlotAt(f.chunk, jif, O.Jif, 3) && JumpAt(f.chunk, jif, O.Jif, target)
  {
    hide SameOn, SlotAt, JumpAt;
    SlotSize(c.chunk, jif, O.Jif, 3);
    ExtendsSameOn(c, f, jif, jif + 9);
    SlotKept(c.chunk, f.chunk, jif, O.Jif, 3);
    JumpKept(c.chunk, f.chunk, jif, O.Jif, target);
    ExtendsSameOn(c, f, jmp, jmp + 1 + ShuChunk.Width(cls));
    SlotKept(c.chunk, f.chunk, jmp, O.Jmp, cls);
  }

  /** The end of an `if`: its `Jmp` patched to the end of the code, masked to its class's width; the `Jif` untouched. */
  lemma IfEnd(f: Context, jif: nat, jmp: nat, cls: nat, target: nat)
    requires jif + 9 <= jmp
    requires SlotAt(f.chunk, jmp, O.Jmp, cls) && SlotAt(f.chunk, jif, O.Jif, 3) && JumpAt(f.chunk, jif, O.Jif, target)
    ensures var r := PatchAt(f, jmp, |f.chunk.code|);
      r.Ok? && |r.value.chunk.code| == |f.chunk.code| &&
      JumpAt(r.value.chunk, jif, O.Jif, target) &&
      JumpAt(r.value.chunk, jmp, O.Jmp, |f.chunk.code| % Pow256(ShuChunk.Width(cls)))
  {
    hide PatchAt, SameOn, JumpAt;
    SlotSize(f.chunk, jif, O.Jif, 3);
    SlotPatched(f, jmp, O.Jmp, cls, |f.chunk.code|);
    var r := PatchAt(f, jmp, |f.chunk.code|).value;
    SameOnWithin(f.chunk.code, r.chunk.code, 0, jmp + 1, jif, jif + 9);
    JumpKept(f.chunk, r.chunk, jif, O.Jif, target);
  }

  /**
   * `if`: once condition and body are lowered, both patches fit, so the `if`
   * fails only when its else branch does. The condition's `Jif` then lands
   * just past the body's `Jmp`, on the else branch; the `Jmp` was emitted
   * without an operand, so its size class is 0 and it keeps only the low
   * byte of its target, the end of the code.
   */
  lemma IfJumps(reg: Registry, c: Context, e: Expr, d1: Context, d3: Context)
    requires e.If? && GenExpr(reg, c, e.condition) == Ok(d1)
    requires GenExpr(reg, Placeholder(d1, O.Jif).0, e.body) == Ok(d3)
    ensures var jif := |d1.chunk.code|;
      var jmp := |d3.chunk.code|;
      var d5 := PatchAt(Emit(d3, CC.Op(O.Jmp, None)).0, jif, jmp + 2);
      d5.Ok? &&
      var d6 := if e.otherwise.Some? then GenExpr(reg, d5.value, e.otherwise.value) else Ok(Bare(d5.value, O.Nul));
      var r := GenIf(reg, c, e);
      (r.Ok? <==> d6.Ok?) &&
      (r.Ok? ==>
        |r.value.chunk.code| == |d6.value.chunk.code| &&
        jif + 9 <= jmp && jmp + 2 <= |r.value.chunk.code| &&
        JumpAt(r.value.chunk, jif, O.Jif, (jmp + 2) % U64_LIMIT) &&
        JumpAt(r.value.chunk, jmp, O.Jmp, |r.value.chunk.code| % 256))
  {
    hide GenExpr, Placeholder, Emit, PatchAt, Bare, Extends, SameFrames, Moves, SameOn, SlotAt, JumpAt;
    var jif := |d1.chunk.code|;
    var jmp := |d3.chunk.code|;
    var d2 := Placeholder(d1, O.Jif).0;
    PlaceholderSlot(d1, O.Jif);
    ExprGrows(reg, d2, e.body);
    ReachesLen(d2, d3);
    ExtendsSameOn(d2, d3, jif, jif + 9);
    SlotKept(d2.chunk, d3.chunk, jif, O.Jif, 3);
    IfMiddle(d3, jif);
    BareJumpSlot(d3, O.Jmp);
    var d5 := PatchAt(Emit(d3, CC.Op(O.Jmp, None)).0, jif, jmp + 2).value;
    var d6 := if e.otherwise.Some? then GenExpr(reg, d5, e.otherwise.value) else Ok(Bare(d5, O.Nul));
    if e.otherwise.Some? {
      ExprGrows(reg, d5, e.otherwise.value);
    } else {
      BareMoves(d5, O.Nul);
      MovesFrames(d5, Bare(d5, O.Nul));
    }
    if d6.Ok? {
      SlotsKept(d5, d6.value, jif, jmp, 0, (jmp + 2) % U64_LIMIT);
      IfEnd(d6.value, jif, jmp, 0, (jmp + 2) % U64_LIMIT);
      Pow256Widths();
      ReachesLen(d5, d6.value);
    }
  }

  /** So once an `if` ends at offset 256 or beyond, its end jump does not decode to the end. */
  lemma IfEndJumpMasked(reg: Registry, c: Context, e: Expr, d1: Context, d3: Context)
    requires e.If? && GenExpr(reg, c, e.condition) == Ok(d1)
    requires GenExpr(reg, Placeholder(d1, O.Jif).0, e.body) == Ok(d3)
    requires GenIf(reg, c, e).Ok? && |GenIf(reg, c, e).value.chunk.code| >= 256
    ensures var r := GenIf(reg, c, e).value;
      !JumpAt(r.chunk, |d3.chunk.code|, O.Jmp, |r.chunk.code|)
  {
    IfJumps(reg, c, e, d1, d3);
  }

  /** The end of a `while`: the back `Jmp`, the `Jif` patched past it, and `Nul`. */
  lemma WhileEnd(d3: Context, jif: nat, start: nat)
    requires SlotAt(d3.chunk, jif, O.Jif, 3) && jif + 9 <= |d3.chunk.code|
    ensures var back := |d3.chunk.code|;
      var d4 := WithUsize(d3, O.Jmp, start);
      var d5 := PatchAt(d4, jif, |d4.chunk.code|);
      d5.Ok? &&
      var d6 := Bare(d5.value, O.Nul);
      var n := |d6.chunk.code|;
      n == back + 1 + ShuChunk.Width(CC.SizeClass(start)) + 1 &&
      JumpAt(d6.chunk, jif, O.Jif, (n - 1) % U64_LIMIT) &&
      (IsU64(start) ==> JumpAt(d6.chunk, back, O.Jmp, start)) &&
      ShuChunk.OpcodeOf(d6.chunk.code[n - 1]) == Some(O.Nul)
  {
    hide WithUsize, PatchAt, Bare, Extends, Moves, SameOn, JumpAt;
    var back := |d3.chunk.code|;
    var d4 := WithUsize(d3, O.Jmp, start);
    UsizeJump(d3, O.Jmp, start);
    SameOnWithin(d3.chunk.code, d4.chunk.code, 0, back, jif, jif + 9);
    SlotKept(d3.chunk, d4.chunk, jif, O.Jif, 3);
    var m := |d4.chunk.code|;
    SlotPatched(d4, jif, O.Jif, 3, m);
    Pow256Widths();
    var d5 := PatchAt(d4, jif, m).value;
    var d6 := Bare(d5, O.Nul);
    BareMoves(d5, O.Nul);
    BareLast(d5, O.Nul);
    ExtendsSameOn(d5, d6, jif, jif + 9);
    SlotSize(d4.chunk, jif, O.Jif, 3);
    JumpKept(d5.chunk, d6.chunk, jif, O.Jif, m % U64_LIMIT);
    if IsU64(start) {
      SlotSize(d4.chunk, back, O.Jmp, CC.SizeClass(start));
      var w := ShuChunk.Size(d4.chunk.code[back]);
      SameOnWithin(d4.chunk.code, d5.chunk.code, jif + 9, m, back, back + 1 + w);
      JumpKept(d4.chunk, d5.chunk, back, O.Jmp, start);
      ExtendsSameOn(d5, d6, back, back + 1 + w);
      JumpKept(d5.chunk, d6.chunk, back, O.Jmp, start);
    }
  }

  /**
   * `while`: once condition and body are lowered the loop always succeeds.
   * Its code ends with the back `Jmp` to where the condition starts and a
   * `Nul`, and the condition's `Jif` lands on that `Nul`.
   */
  lemma WhileJumps(reg: Registry, c: Context, e: Expr, d1: Context, d3: Context)
    requires e.While? && GenExpr(reg, c, e.condition) == Ok(d1)
    requires GenExpr(reg, Placeholder(d1, O.Jif).0, e.body) == Ok(d3)
    ensures var r := GenWhile(reg, c, e);
      var start := |c.chunk.code|;
      var jif := |d1.chunk.code|;
      var back := |d3.chunk.code|;
      r.Ok? &&
      var n := |r.value.chunk.code|;
      start <= jif && jif + 9 <= back &&
      n == back + 1 + ShuChunk.Width(CC.SizeClass(start)) + 1 &&
      JumpAt(r.value.chunk, jif, O.Jif, (n - 1) % U64_LIMIT) &&
      (IsU64(start) ==> JumpAt(r.value.chunk, back, O.Jmp, start)) &&
      ShuChunk.OpcodeOf(r.value.chunk.code[n - 1]) == Some(O.Nul)
  {
    hide GenExpr, Placeholder, WithUsize, PatchAt, Bare, Extends, SameFrames, Moves, SameOn, SlotAt, JumpAt;
    var jif := |d1.chunk.code|;
    ExprGrows(reg, c, e.condition);
    ReachesLen(c, d1);
    var d2 := Placeholder(d1, O.Jif).0;
    PlaceholderSlot(d1, O.Jif);
    ExprGrows(reg, d2, e.body);
    ReachesLen(d2, d3);
    ExtendsSameOn(d2, d3, jif, jif + 9);
    SlotKept(d2.chunk, d3.chunk, jif, O.Jif, 3);
    WhileEnd(d3, jif, |c.chunk.code|);
  }
}
