/**
 * Where the jumps of `case` land, read back from the finished code with the
 * runtime's decoder: every failure jump of an arm's pattern lands on the
 * start of the next arm, those of the last arm on the `Nul` fallback, and
 * every arm-end `Jmp` lands just past that `Nul`, on the `Swp Pop` that drops
 * the subject.
 */
module OmaGenCase {
  import opened Wrappers
  import opened Bytes
  import opened OmaAst
  import opened OmaContext
  import opened OmaGenSpec
  import opened OmaGenFrames
  import opened OmaGenGrowth
  import opened OmaGenJumps
  import O = Opcodes
  import ShuChunk
  import CC = CompilerChunk

  /** A pattern's failure jump not yet patched: a `Jif` or `Jit` of size class 3. */
  predicate FailSlot(ch: ShuChunk.Chunk, o: nat) {
    SlotAt(ch, o, O.Jif, 3) || SlotAt(ch, o, O.Jit, 3)
  }

  /** A jump of size class 3 still to patch, failure or arm end. */
  predicate Slot9(ch: ShuChunk.Chunk, o: nat) {
    FailSlot(ch, o) || SlotAt(ch, o, O.Jmp, 3)
  }

  /** No two of these nine-byte jump instructions overlap. */
  predicate Apart(offs: seq<nat>) {
    forall i, j :: 0 <= i < j < |offs| ==> offs[i] + 9 <= offs[j] || offs[j] + 9 <= offs[i]
  }

  /** Byte i lies in none of these jumps' operands. */
  predicate Clear(i: nat, offs: seq<nat>) {
    forall k :: 0 <= k < |offs| ==> i <= offs[k] || offs[k] + 9 <= i
  }

  /** Failure jumps still to patch, none overlapping another. */
  predicate Pending(ch: ShuChunk.Chunk, offs: seq<nat>) {
    (forall k :: 0 <= k < |offs| ==> FailSlot(ch, offs[k])) && Apart(offs)
  }

  /** Arm-end jumps still to patch. */
  predicate EndSlots(ch: ShuChunk.Chunk, offs: seq<nat>) {
    forall k :: 0 <= k < |offs| ==> SlotAt(ch, offs[k], O.Jmp, 3)
  }

  /** The runtime decodes, at o, an instruction whose operand is target. */
  predicate Lands(ch: ShuChunk.Chunk, o: nat, target: nat) {
    var d := ShuChunk.OpAt(ch, o);
    d.Some? && d.value.operand == target
  }

  // Offsets and bytes

  lemma ApartSwap(xs: seq<nat>, ys: seq<nat>)
    requires Apart(xs + ys)
    ensures Apart(ys + xs) && Apart(xs) && Apart(ys)
  {
    var a, b := xs + ys, ys + xs;
    forall i, j | 0 <= i < j < |b|
      ensures b[i] + 9 <= b[j] || b[j] + 9 <= b[i]
    {
      var i', j' := if i < |ys| then i + |xs| else i - |ys|, if j < |ys| then j + |xs| else j - |ys|;
      assert b[i] == a[i'] && b[j] == a[j'] && i' != j';
      if i' > j' {
        assert a[j'] + 9 <= a[i'] || a[i'] + 9 <= a[j'];
      }
    }
    forall i, j | 0 <= i < j < |xs|
      ensures xs[i] + 9 <= xs[j] || xs[j] + 9 <= xs[i]
    {
      assert xs[i] == a[i] && xs[j] == a[j];
    }
    forall i, j | 0 <= i < j < |ys|
      ensures ys[i] + 9 <= ys[j] || ys[j] + 9 <= ys[i]
    {
      assert ys[i] == a[|xs| + i] && ys[j] == a[|xs| + j];
    }
  }

  /** Jumps all at or after l join jumps that all end by l without overlap. */
  lemma ApartJoin(xs: seq<nat>, ys: seq<nat>, l: nat)
    requires Apart(xs) && Apart(ys)
    requires forall k :: 0 <= k < |xs| ==> l <= xs[k]
    requires forall k :: 0 <= k < |ys| ==> ys[k] + 9 <= l
    ensures Apart(xs + ys) && Apart(ys + xs)
  {
    var a := xs + ys;
    forall i, j | 0 <= i < j < |a|
      ensures a[i] + 9 <= a[j] || a[j] + 9 <= a[i]
    {
      if j < |xs| {
        assert a[i] == xs[i] && a[j] == xs[j];
      } else if i >= |xs| {
        assert a[i] == ys[i - |xs|] && a[j] == ys[j - |xs|];
      } else {
        assert a[i] == xs[i] && a[j] == ys[j - |xs|];
      }
    }
    ApartSwap(xs, ys);
  }

  /** A byte of one jump is clear of all the others. */
  lemma ApartClear(xs: seq<nat>, ys: seq<nat>, k: nat, i: nat)
    requires Apart(xs + ys) && k < |xs| && xs[k] <= i < xs[k] + 9
    ensures Clear(i, ys)
  {
    var a := xs + ys;
    forall j | 0 <= j < |ys|
      ensures i <= ys[j] || ys[j] + 9 <= i
    {
      assert a[k] == xs[k] && a[|xs| + j] == ys[j];
      assert a[k] + 9 <= a[|xs| + j] || a[|xs| + j] + 9 <= a[k];
    }
  }

  lemma ClearSplit(i: nat, xs: seq<nat>, ys: seq<nat>)
    requires Clear(i, xs + ys)
    ensures Clear(i, xs) && Clear(i, ys)
  {
    forall k | 0 <= k < |xs|
      ensures i <= xs[k] || xs[k] + 9 <= i
    {
      assert (xs + ys)[k] == xs[k];
    }
    forall k | 0 <= k < |ys|
      ensures i <= ys[k] || ys[k] + 9 <= i
    {
      assert (xs + ys)[|xs| + k] == ys[k];
    }
  }

  lemma ClearJoin(i: nat, xs: seq<nat>, ys: seq<nat>)
    requires Clear(i, xs) && Clear(i, ys)
    ensures Clear(i, xs + ys)
  {
    forall k | 0 <= k < |xs + ys|
      ensures i <= (xs + ys)[k] || (xs + ys)[k] + 9 <= i
    {
      if k >= |xs| {
        assert (xs + ys)[k] == ys[k - |xs|];
      }
    }
  }

  /** The decoded operand at o depends only on the nine bytes from o. */
  lemma LandsKept(a: ShuChunk.Chunk, b: ShuChunk.Chunk, o: nat, target: nat)
    requires Lands(a, o, target) && o + 9 <= |a.code| && o + 9 <= |b.code|
    requires forall i :: o <= i < o + 9 ==> b.code[i] == a.code[i]
    ensures Lands(b, o, target)
  {
    var n := ShuChunk.Size(a.code[o]);
    assert b.code[o] == a.code[o];
    assert a.code[o + 1..o + 1 + n] == b.code[o + 1..o + 1 + n];
  }

  lemma LandsExtend(a: Context, b: Context, o: nat, target: nat)
    requires Extends(a, b) && Lands(a.chunk, o, target) && o + 9 <= |a.chunk.code|
    ensures Lands(b.chunk, o, target) && b.chunk.code[o] == a.chunk.code[o]
  {
    LandsKept(a.chunk, b.chunk, o, target);
  }

  lemma Slot9Kept(a: ShuChunk.Chunk, b: ShuChunk.Chunk, o: nat)
    requires Slot9(a, o) && SameOn(a.code, b.code, o, o + 9)
    ensures Slot9(b, o) && (FailSlot(a, o) ==> FailSlot(b, o)) && (SlotAt(a, o, O.Jmp, 3) ==> SlotAt(b, o, O.Jmp, 3))
  {
    Pow256Widths();
  }

  lemma PendingExtends(c: Context, d: Context, offs: seq<nat>)
    requires Extends(c, d) && Pending(c.chunk, offs)
    ensures Pending(d.chunk, offs)
  {
    forall k | 0 <= k < |offs|
      ensures FailSlot(d.chunk, offs[k])
    {
      Slot9Kept(c.chunk, d.chunk, offs[k]);
    }
  }

  /** A new failure jump emitted as a placeholder joins the pending ones. */
  lemma PendingAdd(e1: Context, fails: seq<nat>, code: O.Opcode)
    requires Pending(e1.chunk, fails) && (code == O.Jif || code == O.Jit)
    ensures var (d2, fail) := Placeholder(e1, code);
      fail == |e1.chunk.code| && Pending(d2.chunk, fails + [fail])
  {
    var (d2, fail) := Placeholder(e1, code);
    PlaceholderSlot(e1, code);
    PlaceholderMoves(e1, code);
    PendingExtends(e1, d2, fails);
    forall k | 0 <= k < |fails|
      ensures fails[k] + 9 <= fail
    {
    }
    ApartJoin([fail], fails, fail);
  }

  // Patching

  /** One patch lands its jump, keeps every byte outside its operand, and keeps the other jumps' slots. */
  lemma PatchOne(c: Context, o: nat, rest: seq<nat>)
    requires Slot9(c.chunk, o) && (forall k :: 0 <= k < |rest| ==> Slot9(c.chunk, rest[k])) && Apart([o] + rest)
    ensures var p := PatchAt(c, o, |c.chunk.code|);
      p.Ok? && p.value == c.(chunk := p.value.chunk) && |p.value.chunk.code| == |c.chunk.code| &&
      p.value.chunk.code[o] == c.chunk.code[o] && Lands(p.value.chunk, o, |c.chunk.code| % U64_LIMIT) &&
      (forall k :: 0 <= k < |rest| ==> Slot9(p.value.chunk, rest[k])) &&
      (forall i :: 0 <= i < |c.chunk.code| && Clear(i, [o]) ==> p.value.chunk.code[i] == c.chunk.code[i])
  {
    var code := if SlotAt(c.chunk, o, O.Jif, 3) then O.Jif else if SlotAt(c.chunk, o, O.Jit, 3) then O.Jit else O.Jmp;
    SlotPatched(c, o, code, 3, |c.chunk.code|);
    Pow256Widths();
    var p := PatchAt(c, o, |c.chunk.code|).value;
    forall i | 0 <= i < |c.chunk.code| && Clear(i, [o])
      ensures p.chunk.code[i] == c.chunk.code[i]
    {
      assert [o][0] == o;
    }
    forall k | 0 <= k < |rest|
      ensures Slot9(p.chunk, rest[k])
    {
      forall i | rest[k] <= i < rest[k] + 9
        ensures p.chunk.code[i] == c.chunk.code[i]
      {
        ApartSwap([o], rest);
        ApartClear(rest, [o], k, i);
      }
      Slot9Kept(c.chunk, p.chunk, rest[k]);
    }
  }

  /** What the rest of the patches keep of the first patched jump. */
  lemma KeepFirst(p: ShuChunk.Chunk, r: ShuChunk.Chunk, o: nat, rest: seq<nat>, t: nat)
    requires Lands(p, o, t) && o + 9 <= |p.code| && |r.code| == |p.code| && Apart([o] + rest)
    requires forall i :: 0 <= i < |p.code| && Clear(i, rest) ==> r.code[i] == p.code[i]
    ensures Lands(r, o, t) && r.code[o] == p.code[o]
  {
    forall i | o <= i < o + 9
      ensures r.code[i] == p.code[i]
    {
      ApartClear([o], rest, 0, i);
    }
    LandsKept(p, r, o, t);
  }

  /** Bytes clear of the first jump and of the rest are kept by both steps. */
  lemma KeepClear(c: ShuChunk.Chunk, p: ShuChunk.Chunk, r: ShuChunk.Chunk, o: nat, rest: seq<nat>)
    requires |p.code| == |c.code| && |r.code| == |c.code|
    requires forall i :: 0 <= i < |c.code| && Clear(i, [o]) ==> p.code[i] == c.code[i]
    requires forall i :: 0 <= i < |p.code| && Clear(i, rest) ==> r.code[i] == p.code[i]
    ensures forall i :: 0 <= i < |c.code| && Clear(i, [o] + rest) ==> r.code[i] == c.code[i]
  {
    forall i | 0 <= i < |c.code| && Clear(i, [o] + rest)
      ensures r.code[i] == c.code[i]
    {
      ClearSplit(i, [o], rest);
    }
  }

  /** The rest's instruction bytes are clear of the first jump's operand. */
  lemma KeepRest(c: ShuChunk.Chunk, p: ShuChunk.Chunk, r: ShuChunk.Chunk, o: nat, rest: seq<nat>)
    requires |p.code| == |c.code| && |r.code| == |c.code|
    requires Apart([o] + rest) && forall k :: 0 <= k < |rest| ==> rest[k] < |c.code|
    requires forall i :: 0 <= i < |c.code| && Clear(i, [o]) ==> p.code[i] == c.code[i]
    requires forall k :: 0 <= k < |rest| ==> r.code[rest[k]] == p.code[rest[k]]
    ensures forall k :: 0 <= k < |rest| ==> r.code[rest[k]] == c.code[rest[k]]
  {
    forall k | 0 <= k < |rest|
      ensures r.code[rest[k]] == c.code[rest[k]]
    {
      ApartSwap([o], rest);
      ApartClear(rest, [o], k, rest[k]);
    }
  }

  /** Patching jumps that do not overlap lands each on the code length, changing no byte outside their operands. */
  predicate LandedAll(c: Context, offs: seq<nat>, r: Context) {
    r == c.(chunk := r.chunk) && |r.chunk.code| == |c.chunk.code| &&
    (forall k :: 0 <= k < |offs| ==>
      offs[k] + 9 <= |c.chunk.code| && r.chunk.code[offs[k]] == c.chunk.code[offs[k]] &&
      Lands(r.chunk, offs[k], |c.chunk.code| % U64_LIMIT)) &&
    (forall i :: 0 <= i < |c.chunk.code| && Clear(i, offs) ==> r.chunk.code[i] == c.chunk.code[i])
  }

  lemma LandedStep(c: Context, p: Context, r: Context, o: nat, rest: seq<nat>)
    requires Apart([o] + rest) && o + 9 <= |c.chunk.code|
    requires p == c.(chunk := p.chunk) && |p.chunk.code| == |c.chunk.code|
    requires p.chunk.code[o] == c.chunk.code[o] && Lands(p.chunk, o, |c.chunk.code| % U64_LIMIT)
    requires forall i :: 0 <= i < |c.chunk.code| && Clear(i, [o]) ==> p.chunk.code[i] == c.chunk.code[i]
    requires LandedAll(p, rest, r)
    ensures LandedAll(c, [o] + rest, r)
  {
    hide Lands, Apart, Clear;
    var offs := [o] + rest;
    KeepFirst(p.chunk, r.chunk, o, rest, |c.chunk.code| % U64_LIMIT);
    KeepClear(c.chunk, p.chunk, r.chunk, o, rest);
    KeepRest(c.chunk, p.chunk, r.chunk, o, rest);
    forall k | 0 <= k < |offs|
      ensures offs[k] + 9 <= |c.chunk.code| && r.chunk.code[offs[k]] == c.chunk.code[offs[k]] &&
        Lands(r.chunk, offs[k], |c.chunk.code| % U64_LIMIT)
    {
      if k > 0 {
        assert offs[k] == rest[k - 1];
      }
    }
  }

  lemma {:induction false} PatchAllLands(c: Context, offs: seq<nat>)
    requires (forall k :: 0 <= k < |offs| ==> Slot9(c.chunk, offs[k])) && Apart(offs)
    ensures PatchAll(c, offs).Ok? && LandedAll(c, offs, PatchAll(c, offs).value)
    decreases offs
  {
    if offs == [] {
      assert LandedAll(c, offs, c);
    } else {
      var o := offs[0];
      var rest := offs[1..];
      assert offs == [o] + rest;
      PatchOne(c, o, rest);
      var p := PatchAt(c, o, |c.chunk.code|).value;
      hide PatchAt, Slot9, Lands, Apart, Clear, LandedAll;
      PatchAllLands(p, rest);
      var r := PatchAll(p, rest).value;
      assert PatchAll(c, offs) == Ok(r);
      Pow256Widths();
      LandedStep(c, p, r, o, rest);
    }
  }

  // Patterns

  /** A pattern leaves every failure jump, the ones it was given and the ones it adds, pending. */
  lemma {:induction false} CasePatSlots(c: Context, fails: seq<nat>, path: seq<seq<u8>>, p: Pat)
    requires Pending(c.chunk, fails)
    ensures var r := GenCasePat(c, fails, path, p);
      r.Ok? ==> Pending(r.value.0.chunk, r.value.1)
    decreases p, 1
  {
    hide Moves, Pending, Bare, WithString, WithUsize, Placeholder, Subject, GenLit, AddLocal, GenCasePairs;
    match p {
      case IdentPat(ident) =>
        var (d1, slot) := AddLocal(c, ident);
        AddLocalMoves(c, ident);
        DupSubjectMoves(d1, path);
        var d2 := Subject(Bare(d1, O.Dup), path);
        WithUsizeMoves(d2, O.Sav, slot);
        BareMoves(WithUsize(d2, O.Sav, slot), O.Pop);
        MovesTrans(c, d1, d2);
        MovesTrans(c, d2, WithUsize(d2, O.Sav, slot));
        MovesTrans(c, WithUsize(d2, O.Sav, slot), Bare(WithUsize(d2, O.Sav, slot), O.Pop));
        PendingExtends(c, Bare(WithUsize(d2, O.Sav, slot), O.Pop), fails);
      case TagPat(_, tag, inner) =>
        var d0 := Subject(Bare(c, O.Dup), path);
        DupSubjectMoves(c, path);
        var d1 := Bare(d0, O.Gtg);
        BareMoves(d0, O.Gtg);
        var s1 := WithString(d1, O.Str, tag.content);
        WithStringMoves(d1, O.Str, tag.content);
        var e1 := Bare(s1, O.Eql);
        BareMoves(s1, O.Eql);
        MovesTrans(c, d0, d1);
        MovesTrans(c, d1, s1);
        MovesTrans(c, s1, e1);
        PendingExtends(c, e1, fails);
        PendingAdd(e1, fails, O.Jif);
        var (d2, fail) := Placeholder(e1, O.Jif);
        CasePatSlots(d2, fails + [fail], path + [UTG], inner);
      case MapPat(_, pairs) => CasePairsSlots(c, fails, path, pairs);
      case LitPat(lit) =>
        var d0 := Subject(Bare(c, O.Dup), path);
        DupSubjectMoves(c, path);
        LitMoves(d0, lit);
        var e1 := Bare(GenLit(d0, lit), O.Eql);
        BareMoves(GenLit(d0, lit), O.Eql);
        MovesTrans(c, d0, GenLit(d0, lit));
        MovesTrans(c, GenLit(d0, lit), e1);
        PendingExtends(c, e1, fails);
        PendingAdd(e1, fails, O.Jif);
      case ArrayPat(_, _) =>
    }
  }

  lemma {:induction false} CasePairsSlots(c: Context, fails: seq<nat>, path: seq<seq<u8>>, pairs: seq<MapPatPair>)
    requires Pending(c.chunk, fails)
    ensures var r := GenCasePairs(c, fails, path, pairs);
      r.Ok? ==> Pending(r.value.0.chunk, r.value.1)
    decreases pairs, 0
  {
    hide Moves, Pending, Bare, WithString, Placeholder, Subject, GenCasePat;
    if pairs != [] {
      var pair := pairs[0];
      assert pair in pairs;
      match pair {
        case PatField(field, pat) =>
          assert pat < pair;
          var s := Subject(Bare(c, O.Dup), path);
          DupSubjectMoves(c, path);
          var s1 := WithString(s, O.Str, field.content);
          WithStringMoves(s, O.Str, field.content);
          var s2 := Bare(s1, O.Get);
          BareMoves(s1, O.Get);
          var s3 := Bare(s2, O.Nul);
          BareMoves(s2, O.Nul);
          var d1 := Bare(s3, O.Eql);
          BareMoves(s3, O.Eql);
          MovesTrans(c, s, s1);
          MovesTrans(c, s1, s2);
          MovesTrans(c, s2, s3);
          MovesTrans(c, s3, d1);
          PendingExtends(c, d1, fails);
          PendingAdd(d1, fails, O.Jit);
          var (d2, fail) := Placeholder(d1, O.Jit);
          CasePatSlots(d2, fails + [fail], path + [field.content], pat);
          var q := GenCasePat(d2, fails + [fail], path + [field.content], pat);
          if q.Ok? {
            CasePairsSlots(q.value.0, q.value.1, path, pairs[1..]);
          }
        case PatSpread(_) =>
      }
    }
  }

  // Keeping landed jumps

  /** Every jump at offs decodes with operand t. */
  predicate LandsAll(ch: ShuChunk.Chunk, offs: seq<nat>, t: nat) {
    forall k :: 0 <= k < |offs| ==> offs[k] + 9 <= |ch.code| && Lands(ch, offs[k], t)
  }

  /** The instruction bytes at offs are the same in both codes. */
  predicate KeptBytes(a: ShuChunk.Chunk, b: ShuChunk.Chunk, offs: seq<nat>) {
    forall k :: 0 <= k < |offs| ==> offs[k] < |a.code| && offs[k] < |b.code| && b.code[offs[k]] == a.code[offs[k]]
  }

  /** b is no shorter than a and keeps every byte of a outside the operands at others. */
  predicate KeptClear(a: ShuChunk.Chunk, b: ShuChunk.Chunk, others: seq<nat>) {
    |a.code| <= |b.code| && forall i :: 0 <= i < |a.code| && Clear(i, others) ==> b.code[i] == a.code[i]
  }

  /** The nine bytes from o are clear of the operands at others. */
  predicate RangeClear(o: nat, others: seq<nat>) {
    forall i :: o <= i < o + 9 ==> Clear(i, others)
  }

  /** The code ends in the fallback `Nul` and the `Swp Pop` that drops the subject. */
  predicate Fallback(ch: ShuChunk.Chunk) {
    var n := |ch.code|;
    n >= 3 && ShuChunk.OpcodeOf(ch.code[n - 3]) == Some(O.Nul) &&
    ShuChunk.OpcodeOf(ch.code[n - 2]) == Some(O.Swp) && ShuChunk.OpcodeOf(ch.code[n - 1]) == Some(O.Pop)
  }

  lemma LandedParts(c: Context, offs: seq<nat>, r: Context)
    requires LandedAll(c, offs, r)
    ensures LandsAll(r.chunk, offs, |c.chunk.code| % U64_LIMIT) && KeptBytes(c.chunk, r.chunk, offs)
    ensures KeptClear(c.chunk, r.chunk, offs) && |r.chunk.code| == |c.chunk.code|
  {
  }

  lemma ExtendsKeeps(a: Context, b: Context, offs: seq<nat>, t: nat)
    requires Extends(a, b) && LandsAll(a.chunk, offs, t)
    ensures LandsAll(b.chunk, offs, t) && KeptBytes(a.chunk, b.chunk, offs)
  {
    forall k | 0 <= k < |offs|
      ensures offs[k] + 9 <= |b.chunk.code| && Lands(b.chunk, offs[k], t) && b.chunk.code[offs[k]] == a.chunk.code[offs[k]]
    {
      LandsExtend(a, b, offs[k], t);
    }
  }

  lemma ClearKeeps(a: ShuChunk.Chunk, b: ShuChunk.Chunk, offs: seq<nat>, others: seq<nat>, t: nat)
    requires LandsAll(a, offs, t) && KeptClear(a, b, others)
    requires forall k :: 0 <= k < |offs| ==> RangeClear(offs[k], others)
    ensures LandsAll(b, offs, t) && KeptBytes(a, b, offs)
  {
    forall k | 0 <= k < |offs|
      ensures offs[k] + 9 <= |b.code| && Lands(b, offs[k], t) && b.code[offs[k]] == a.code[offs[k]]
    {
      assert RangeClear(offs[k], others);
      LandsKept(a, b, offs[k], t);
    }
  }

  lemma KeptBytesTrans(a: ShuChunk.Chunk, b: ShuChunk.Chunk, c: ShuChunk.Chunk, offs: seq<nat>)
    requires KeptBytes(a, b, offs) && KeptBytes(b, c, offs)
    ensures KeptBytes(a, c, offs)
  {
  }

  lemma EndSlotsExtend(a: Context, b: Context, ends: seq<nat>)
    requires Extends(a, b) && EndSlots(a.chunk, ends)
    ensures EndSlots(b.chunk, ends)
  {
    forall k | 0 <= k < |ends|
      ensures SlotAt(b.chunk, ends[k], O.Jmp, 3)
    {
      Pow256Widths();
      Slot9Kept(a.chunk, b.chunk, ends[k]);
    }
  }

  /** Patching the failure jumps keeps the arm-end slots, which they do not overlap. */
  lemma EndsKept(c: ShuChunk.Chunk, d: ShuChunk.Chunk, fails: seq<nat>, ends: seq<nat>)
    requires EndSlots(c, ends) && Apart(fails + ends) && KeptClear(c, d, fails)
    ensures EndSlots(d, ends) && forall k :: 0 <= k < |ends| ==> RangeClear(ends[k], fails)
  {
    ApartSwap(fails, ends);
    forall k | 0 <= k < |ends|
      ensures SlotAt(d, ends[k], O.Jmp, 3) && RangeClear(ends[k], fails)
    {
      Pow256Widths();
      forall i | ends[k] <= i < ends[k] + 9
        ensures Clear(i, fails)
      {
        ApartClear(ends, fails, k, i);
      }
      Slot9Kept(c, d, ends[k]);
    }
  }

  lemma PendingSlot9(ch: ShuChunk.Chunk, fails: seq<nat>, ends: seq<nat>)
    requires Pending(ch, fails) && EndSlots(ch, ends)
    ensures forall k :: 0 <= k < |fails| ==> Slot9(ch, fails[k]) && fails[k] + 9 <= |ch.code|
    ensures forall k :: 0 <= k < |ends| ==> Slot9(ch, ends[k]) && ends[k] + 9 <= |ch.code|
  {
    Pow256Widths();
  }

  /** A failure jump's bytes are clear of the arm-end jumps, which it does not overlap. */
  lemma FailsClear(fails: seq<nat>, ends: seq<nat>)
    requires Apart(fails + ends)
    ensures forall k :: 0 <= k < |fails| ==> RangeClear(fails[k], ends)
  {
    forall k | 0 <= k < |fails|
      ensures RangeClear(fails[k], ends)
    {
      forall i | fails[k] <= i < fails[k] + 9
        ensures Clear(i, ends)
      {
        ApartClear(fails, ends, k, i);
      }
    }
  }

  /**
   * What the arms from c on produce, once they succeed: the code ends in the
   * fallback `Nul` and `Swp Pop`; the failure jumps pending at c land on c's
   * end, where these arms start; the arm-end jumps land just past the `Nul`;
   * and every other byte of c is kept.
   */
  predicate ArmsEnd(c: ShuChunk.Chunk, fails: seq<nat>, ends: seq<nat>, r: ShuChunk.Chunk) {
    |c.code| + 3 <= |r.code| && Fallback(r) &&
    LandsAll(r, fails, |c.code| % U64_LIMIT) && KeptBytes(c, r, fails) &&
    LandsAll(r, ends, (|r.code| - 2) % U64_LIMIT) && KeptBytes(c, r, ends) &&
    KeptClear(c, r, fails + ends)
  }

  /** The code of b starts with the code of a. */
  predicate Prefix(a: ShuChunk.Chunk, b: ShuChunk.Chunk) {
    |a.code| <= |b.code| && forall i :: 0 <= i < |a.code| ==> b.code[i] == a.code[i]
  }

  lemma PrefixKeeps(a: ShuChunk.Chunk, b: ShuChunk.Chunk, offs: seq<nat>, t: nat)
    requires Prefix(a, b) && LandsAll(a, offs, t)
    ensures LandsAll(b, offs, t) && KeptBytes(a, b, offs)
  {
    forall k | 0 <= k < |offs|
      ensures offs[k] + 9 <= |b.code| && Lands(b, offs[k], t) && b.code[offs[k]] == a.code[offs[k]]
    {
      LandsKept(a, b, offs[k], t);
    }
  }

  lemma PrefixBytes(a: ShuChunk.Chunk, b: ShuChunk.Chunk, offs: seq<nat>)
    requires Prefix(a, b) && forall k :: 0 <= k < |offs| ==> offs[k] < |a.code|
    ensures KeptBytes(a, b, offs)
  {
  }

  /** The arm-end jumps' bytes are clear of the failure jumps', so patching the latter keeps them. */
  lemma EndBytesKept(c: ShuChunk.Chunk, d1: ShuChunk.Chunk, fails: seq<nat>, ends: seq<nat>)
    requires KeptClear(c, d1, fails) && forall k :: 0 <= k < |ends| ==> ends[k] + 9 <= |c.code| && RangeClear(ends[k], fails)
    ensures KeptBytes(c, d1, ends)
  {
    forall k | 0 <= k < |ends|
      ensures d1.code[ends[k]] == c.code[ends[k]]
    {
      assert RangeClear(ends[k], fails);
    }
  }

  /** The chunks after the last arm: failure jumps patched (d1), `Nul` (nul), arm ends patched (d2), `Swp Pop` (pp). */
  lemma BaseCombine(c: ShuChunk.Chunk, d1: ShuChunk.Chunk, nul: ShuChunk.Chunk, d2: ShuChunk.Chunk, pp: ShuChunk.Chunk,
                    fails: seq<nat>, ends: seq<nat>)
    requires Apart(fails + ends) && forall k :: 0 <= k < |ends| ==> ends[k] + 9 <= |c.code| && RangeClear(ends[k], fails)
    requires |d1.code| == |c.code| && LandsAll(d1, fails, |c.code| % U64_LIMIT) && KeptBytes(c, d1, fails) && KeptClear(c, d1, fails)
    requires Prefix(d1, nul) && |nul.code| == |c.code| + 1 && ShuChunk.OpcodeOf(nul.code[|c.code|]) == Some(O.Nul)
    requires |d2.code| == |nul.code| && LandsAll(d2, ends, (|c.code| + 1) % U64_LIMIT)
    requires KeptBytes(nul, d2, ends) && KeptClear(nul, d2, ends)
    requires Prefix(d2, pp) && |pp.code| == |c.code| + 3
    requires ShuChunk.OpcodeOf(pp.code[|c.code| + 1]) == Some(O.Swp) && ShuChunk.OpcodeOf(pp.code[|c.code| + 2]) == Some(O.Pop)
    ensures ArmsEnd(c, fails, ends, pp)
  {
    var l := |c.code|;
    assert Clear(l, ends);
    FailsClear(fails, ends);
    PrefixKeeps(d1, nul, fails, l % U64_LIMIT);
    ClearKeeps(nul, d2, fails, ends, l % U64_LIMIT);
    PrefixKeeps(d2, pp, fails, l % U64_LIMIT);
    KeptBytesTrans(c, d1, nul, fails);
    KeptBytesTrans(c, nul, d2, fails);
    KeptBytesTrans(c, d2, pp, fails);
    PrefixKeeps(d2, pp, ends, (l + 1) % U64_LIMIT);
    EndBytesKept(c, d1, fails, ends);
    PrefixBytes(d1, nul, ends);
    KeptBytesTrans(c, d1, nul, ends);
    KeptBytesTrans(c, nul, d2, ends);
    KeptBytesTrans(c, d2, pp, ends);
    forall i | 0 <= i < l && Clear(i, fails + ends)
      ensures pp.code[i] == c.code[i]
    {
      ClearSplit(i, fails, ends);
    }
  }

  /** Patching the failure jumps to the end of the code. */
  lemma BaseFails(c: Context, fails: seq<nat>, ends: seq<nat>)
    requires Pending(c.chunk, fails) && EndSlots(c.chunk, ends) && Apart(fails + ends)
    ensures PatchAll(c, fails).Ok?
    ensures var d1 := PatchAll(c, fails).value.chunk;
      |d1.code| == |c.chunk.code| && LandsAll(d1, fails, |c.chunk.code| % U64_LIMIT) &&
      KeptBytes(c.chunk, d1, fails) && KeptClear(c.chunk, d1, fails) && EndSlots(d1, ends) &&
      Apart(ends) && forall k :: 0 <= k < |ends| ==> ends[k] + 9 <= |c.chunk.code| && RangeClear(ends[k], fails)
  {
    ApartSwap(fails, ends);
    PendingSlot9(c.chunk, fails, ends);
    PatchAllLands(c, fails);
    var d1 := PatchAll(c, fails).value;
    LandedParts(c, fails, d1);
    EndsKept(c.chunk, d1.chunk, fails, ends);
  }

  /** A `Nul`, then the arm-end jumps patched to the end of the code. */
  lemma BaseEnds(d1: Context, ends: seq<nat>)
    requires EndSlots(d1.chunk, ends) && Apart(ends)
    ensures var nul := Bare(d1, O.Nul);
      PatchAll(nul, ends).Ok? &&
      var d2 := PatchAll(nul, ends).value.chunk;
      Prefix(d1.chunk, nul.chunk) && |nul.chunk.code| == |d1.chunk.code| + 1 &&
      ShuChunk.OpcodeOf(nul.chunk.code[|d1.chunk.code|]) == Some(O.Nul) &&
      |d2.code| == |nul.chunk.code| && LandsAll(d2, ends, (|d1.chunk.code| + 1) % U64_LIMIT) &&
      KeptBytes(nul.chunk, d2, ends) && KeptClear(nul.chunk, d2, ends)
  {
    var nul := Bare(d1, O.Nul);
    BareLast(d1, O.Nul);
    BareMoves(d1, O.Nul);
    EndSlotsExtend(d1, nul, ends);
    PendingSlot9(nul.chunk, [], ends);
    PatchAllLands(nul, ends);
    LandedParts(nul, ends, PatchAll(nul, ends).value);
  }

  /** The closing `Swp Pop`. */
  lemma BaseTail(d2: Context)
    ensures var pp := Bare(Bare(d2, O.Swp), O.Pop);
      Prefix(d2.chunk, pp.chunk) && |pp.chunk.code| == |d2.chunk.code| + 2 &&
      ShuChunk.OpcodeOf(pp.chunk.code[|d2.chunk.code|]) == Some(O.Swp) &&
      ShuChunk.OpcodeOf(pp.chunk.code[|d2.chunk.code| + 1]) == Some(O.Pop)
  {
    var sw := Bare(d2, O.Swp);
    BareLast(d2, O.Swp);
    BareMoves(d2, O.Swp);
    BareLast(sw, O.Pop);
    BareMoves(sw, O.Pop);
  }

  /** After the last arm: the failure jumps land on the `Nul`, the arm ends past it. */
  lemma ArmsBase(reg: Registry, c: Context, fails: seq<nat>, ends: seq<nat>)
    requires Pending(c.chunk, fails) && EndSlots(c.chunk, ends) && Apart(fails + ends)
    ensures var r := GenArms(reg, c, [], fails, ends);
      r.Ok? && ArmsEnd(c.chunk, fails, ends, r.value.chunk)
  {
    hide GenExpr, GenCasePat, Placeholder, EnterScope, ExitScope;
    BaseFails(c, fails, ends);
    var d1 := PatchAll(c, fails).value;
    BaseEnds(d1, ends);
    var nul := Bare(d1, O.Nul);
    var d2 := PatchAll(nul, ends).value;
    BaseTail(d2);
    var pp := Bare(Bare(d2, O.Swp), O.Pop);
    assert GenArms(reg, c, [], fails, ends) == Ok(pp);
    hide Bare, PatchAll, LandsAll, KeptBytes, KeptClear, RangeClear, Apart, Pending, EndSlots, ArmsEnd, Prefix;
    BaseCombine(c.chunk, d1.chunk, nul.chunk, d2.chunk, pp.chunk, fails, ends);
  }

  // One arm

  /** A byte no later than every offset in offs lies in none of their operands. */
  lemma ClearBelow(i: nat, offs: seq<nat>, l: nat)
    requires i <= l && forall k :: 0 <= k < |offs| ==> l <= offs[k]
    ensures Clear(i, offs)
  {
  }

  /** Below the start l of an arm, being clear of the earlier arm ends means being clear of the next arm's jumps. */
  lemma NextClear(i: nat, p1: seq<nat>, ends: seq<nat>, e: nat, l: nat)
    requires i <= l && l <= e && Clear(i, ends) && forall k :: 0 <= k < |p1| ==> l <= p1[k]
    ensures Clear(i, p1 + (ends + [e]))
  {
    ClearBelow(i, p1, l);
    ClearBelow(i, [e], l);
    ClearJoin(i, ends, [e]);
    ClearJoin(i, p1, ends + [e]);
  }

  /** The failure jumps of an arm lie below its start, so clear of everything the later arms add. */
  lemma FailRanges(fails: seq<nat>, ends: seq<nat>, p1: seq<nat>, e: nat, l: nat)
    requires Apart(fails + ends) && l <= e
    requires forall k :: 0 <= k < |fails| ==> fails[k] + 9 <= l
    requires forall k :: 0 <= k < |p1| ==> l <= p1[k]
    ensures forall k :: 0 <= k < |fails| ==> RangeClear(fails[k], p1 + (ends + [e]))
  {
    FailsClear(fails, ends);
    forall k, i | 0 <= k < |fails| && fails[k] <= i < fails[k] + 9
      ensures Clear(i, p1 + (ends + [e]))
    {
      assert RangeClear(fails[k], ends);
      NextClear(i, p1, ends, e, l);
    }
  }

  /** Facts about ends + [e] read back on ends. */
  lemma EndsPrefix(x: ShuChunk.Chunk, r: ShuChunk.Chunk, ends: seq<nat>, e: nat, t: nat)
    requires LandsAll(r, ends + [e], t) && KeptBytes(x, r, ends + [e])
    ensures LandsAll(r, ends, t) && KeptBytes(x, r, ends)
  {
    forall k | 0 <= k < |ends|
      ensures ends[k] + 9 <= |r.code| && Lands(r, ends[k], t) && ends[k] < |x.code| && r.code[ends[k]] == x.code[ends[k]]
    {
      assert (ends + [e])[k] == ends[k];
    }
  }

  /**
   * From the chunk the later arms start on (x) back to the chunk this arm
   * started on (c): d1 is c with this arm's incoming failure jumps patched,
   * x extends d1, and the arm's own jumps (p1, e) all lie at or after |c|.
   */
  lemma ArmCombine(c: ShuChunk.Chunk, d1: ShuChunk.Chunk, x: ShuChunk.Chunk, r: ShuChunk.Chunk,
                   fails: seq<nat>, ends: seq<nat>, p1: seq<nat>, e: nat)
    requires Apart(fails + ends) && forall k :: 0 <= k < |ends| ==> ends[k] + 9 <= |c.code| && RangeClear(ends[k], fails)
    requires |d1.code| == |c.code| && LandsAll(d1, fails, |c.code| % U64_LIMIT) && KeptBytes(c, d1, fails) && KeptClear(c, d1, fails)
    requires Prefix(d1, x) && |c.code| <= e && forall k :: 0 <= k < |p1| ==> |c.code| <= p1[k]
    requires ArmsEnd(x, p1, ends + [e], r)
    ensures ArmsEnd(c, fails, ends, r)
  {
    var l := |c.code|;
    var t := l % U64_LIMIT;
    var later := p1 + (ends + [e]);
    PrefixKeeps(d1, x, fails, t);
    FailRanges(fails, ends, p1, e, l);
    ClearKeeps(x, r, fails, later, t);
    KeptBytesTrans(c, d1, x, fails);
    KeptBytesTrans(c, x, r, fails);
    EndsPrefix(x, r, ends, e, (|r.code| - 2) % U64_LIMIT);
    EndBytesKept(c, d1, fails, ends);
    PrefixBytes(d1, x, ends);
    KeptBytesTrans(c, d1, x, ends);
    KeptBytesTrans(c, x, r, ends);
    forall i | 0 <= i < l && Clear(i, fails + ends)
      ensures r.code[i] == c.code[i]
    {
      ClearSplit(i, fails, ends);
      NextClear(i, p1, ends, e, l);
    }
  }

  lemma EndSlotsAdd(ch: ShuChunk.Chunk, ends: seq<nat>, e: nat)
    requires EndSlots(ch, ends) && SlotAt(ch, e, O.Jmp, 3)
    ensures EndSlots(ch, ends + [e])
  {
    forall k | 0 <= k < |ends| + 1
      ensures SlotAt(ch, (ends + [e])[k], O.Jmp, 3)
    {
      if k < |ends| {
        assert (ends + [e])[k] == ends[k];
      }
    }
  }

  /** The next arm's jumps are apart: p1 lies in [l, n), the earlier ends below l, the arm's end jump at n. */
  lemma NextApart(p1: seq<nat>, ends: seq<nat>, e: nat, l: nat, n: nat)
    requires Apart(p1) && Apart(ends) && l <= n && n <= e
    requires forall k :: 0 <= k < |p1| ==> l <= p1[k] && p1[k] + 9 <= n
    requires forall k :: 0 <= k < |ends| ==> ends[k] + 9 <= l
    ensures Apart(p1 + (ends + [e]))
  {
    ApartJoin(p1, ends, l);
    var ys := p1 + ends;
    forall k | 0 <= k < |ys|
      ensures ys[k] + 9 <= e
    {
      if k >= |p1| {
        assert ys[k] == ends[k - |p1|];
      }
    }
    ApartJoin([e], ys, e);
    assert ys + [e] == p1 + (ends + [e]);
  }

  /**
   * One arm of `Generator::case_expr`: its pattern and body, in a scope, then
   * the end `Jmp`. The code the later arms start on extends d1, the new failure
   * jumps are pending, and the arm ends and failure jumps stay apart.
   */
  lemma ArmStep(reg: Registry, c: Context, ends: seq<nat>, d1: Context, arm: Arm, p: (Context, seq<nat>), d3: Context)
    requires EndSlots(d1.chunk, ends) && Apart(ends) && |d1.chunk.code| == |c.chunk.code|
    requires forall k :: 0 <= k < |ends| ==> ends[k] + 9 <= |c.chunk.code|
    requires GenCasePat(EnterScope(d1), [], [], arm.pat) == Ok(p)
    requires GenExpr(reg, p.0, arm.body) == Ok(d3)
    requires Placeholder(d3, O.Jmp).0.localDepth > 0
    ensures var (d4, e) := Placeholder(d3, O.Jmp);
      var x := ExitScope(d4).0;
      e == |d3.chunk.code| && |c.chunk.code| <= e &&
      Pending(x.chunk, p.1) && EndSlots(x.chunk, ends + [e]) && Apart(p.1 + (ends + [e])) &&
      Prefix(d1.chunk, x.chunk) && forall k :: 0 <= k < |p.1| ==> |c.chunk.code| <= p.1[k]
  {
    hide GenExpr, GenCasePat, Placeholder;
    var d0 := EnterScope(d1);
    assert Pending(d0.chunk, []);
    CasePatSlots(d0, [], [], arm.pat);
    CasePatGrows(d0, [], [], arm.pat);
    ExprGrows(reg, p.0, arm.body);
    PlaceholderSlot(d3, O.Jmp);
    PlaceholderMoves(d3, O.Jmp);
    var (d4, e) := Placeholder(d3, O.Jmp);
    var x := ExitScope(d4).0;
    assert x.chunk == d4.chunk;
    PendingExtends(p.0, d3, p.1);
    PendingExtends(d3, d4, p.1);
    PendingSlot9(p.0.chunk, p.1, []);
    ExtendsTrans(d1, p.0, d3);
    ExtendsTrans(d1, d3, d4);
    EndSlotsExtend(d1, d4, ends);
    EndSlotsAdd(d4.chunk, ends, e);
    NextApart(p.1, ends, e, |c.chunk.code|, |p.0.chunk.code|);
  }

  /**
   * Induction over the arms: every incoming failure jump lands on the start
   * of the arm it skips to (here, the code at c), every arm-end jump lands
   * past the `Nul` fallback, and the code ends in `Nul Swp Pop`.
   */
  lemma {:induction false} ArmsJumps(reg: Registry, c: Context, arms: seq<Arm>, fails: seq<nat>, ends: seq<nat>)
    requires Pending(c.chunk, fails) && EndSlots(c.chunk, ends) && Apart(fails + ends)
    ensures var r := GenArms(reg, c, arms, fails, ends);
      r.Ok? ==> ArmsEnd(c.chunk, fails, ends, r.value.chunk)
    decreases arms
  {
    if arms == [] {
      ArmsBase(reg, c, fails, ends);
    } else {
      hide GenExpr, GenCasePat, Placeholder, EnterScope, ExitScope;
      BaseFails(c, fails, ends);
      var d1 := PatchAll(c, fails).value;
      var arm := arms[0];
      var pr := GenCasePat(EnterScope(d1), [], [], arm.pat);
      if pr.Ok? {
        var d3r := GenExpr(reg, pr.value.0, arm.body);
        if d3r.Ok? {
          var (d4, e) := Placeholder(d3r.value, O.Jmp);
          if d4.localDepth > 0 {
            ArmStep(reg, c, ends, d1, arm, pr.value, d3r.value);
            var x := ExitScope(d4).0;
            ArmsJumps(reg, x, arms[1..], pr.value.1, ends + [e]);
            var r := GenArms(reg, x, arms[1..], pr.value.1, ends + [e]);
            assert GenArms(reg, c, arms, fails, ends) == r;
            if r.Ok? {
              hide PatchAll, LandsAll, KeptBytes, KeptClear, RangeClear, Apart, Pending, EndSlots, ArmsEnd, Prefix;
              ArmCombine(c.chunk, d1.chunk, x.chunk, r.value.chunk, fails, ends, pr.value.1, e);
            }
          }
        }
      }
    }
  }

  /**
   * `Generator::case_expr`: the subject is lowered once, ahead of every arm;
   * each arm's failure jumps land on the next arm's first byte, the last
   * arm's on the `Nul` fallback; every arm's end `Jmp` lands just past that
   * `Nul`, on the `Swp Pop` that drops the subject and keeps the arm's value.
   */
  lemma CaseJumps(reg: Registry, c: Context, e: Expr, d: Context)
    requires e.Case? && GenExpr(reg, c, e.subject) == Ok(d)
    ensures var r := GenExpr(reg, c, e);
      r == GenArms(reg, d, e.arms, [], []) &&
      (r.Ok? ==>
        Extends(d, r.value) && ArmsEnd(d.chunk, [], [], r.value.chunk) &&
        forall i :: 0 <= i < |d.chunk.code| ==> r.value.chunk.code[i] == d.chunk.code[i])
  {
    assert Pending(d.chunk, []) && EndSlots(d.chunk, []) && Apart([] + []);
    ArmsJumps(reg, d, e.arms, [], []);
    assert GenExpr(reg, c, e) == GenCase(reg, c, e);
    var r := GenArms(reg, d, e.arms, [], []);
    if r.Ok? {
      forall i | 0 <= i < |d.chunk.code|
        ensures r.value.chunk.code[i] == d.chunk.code[i]
      {
        assert Clear(i, [] + []);
      }
    }
  }
}
