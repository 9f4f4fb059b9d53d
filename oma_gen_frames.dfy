/**
 * How lowering changes the generator's context: the code already emitted is
 * never touched (code only grows, and every patch lands at or after the
 * point where the routine started), and the enclosing functions' code,
 * slots and scope depths come back unchanged, as does the current scope
 * depth. Two consequences: leaving a lambda always finds its parent, and a
 * `case` arm always finds the scope it entered.
 */
module OmaGenFrames {
  import opened Wrappers
  import opened Bytes
  import opened OmaAst
  import opened OmaContext
  import opened OmaGenSpec
  import OmaLocals
  import Tokens
  import O = Opcodes
  import CC = CompilerChunk

  /** The code of c is a prefix of the code of d. */
  predicate Extends(c: Context, d: Context) {
    |c.chunk.code| <= |d.chunk.code| && forall i :: 0 <= i < |c.chunk.code| ==> d.chunk.code[i] == c.chunk.code[i]
  }

  /** Same function, same scope depth, code appended. */
  predicate Moves(c: Context, d: Context) {
    Extends(c, d) && d.parent == c.parent && d.localDepth == c.localDepth
  }

  /** The scope depth agrees and, all the way out, each enclosing function has the same code, slots and depth. */
  predicate SameFrames(c: Context, d: Context)
    decreases c
  {
    c.localDepth == d.localDepth && (c.parent.Some? <==> d.parent.Some?) &&
    (c.parent.Some? ==>
      c.parent.value.chunk == d.parent.value.chunk && c.parent.value.locals == d.parent.value.locals &&
      SameFrames(c.parent.value, d.parent.value))
  }

  /** d extends c's code and keeps c's frames. */
  predicate Reaches(c: Context, d: Context) {
    Extends(c, d) && SameFrames(c, d)
  }

  /** Success reaches a context from c. */
  predicate Grows(c: Context, r: Outcome) {
    r.Ok? ==> Reaches(c, r.value)
  }

  // Plumbing

  lemma {:induction false} SameFramesRefl(c: Context)
    ensures SameFrames(c, c)
    decreases c
  {
    if c.parent.Some? {
      SameFramesRefl(c.parent.value);
    }
  }

  lemma {:induction false} SameFramesTrans(a: Context, b: Context, c: Context)
    requires SameFrames(a, b) && SameFrames(b, c)
    ensures SameFrames(a, c)
    decreases a
  {
    if a.parent.Some? {
      SameFramesTrans(a.parent.value, b.parent.value, c.parent.value);
    }
  }

  lemma MovesFrames(c: Context, d: Context)
    requires Moves(c, d)
    ensures Reaches(c, d)
  {
    SameFramesRefl(c);
  }

  lemma ReachesTrans(a: Context, b: Context, c: Context)
    requires Reaches(a, b) && Reaches(b, c)
    ensures Reaches(a, c)
  {
    SameFramesTrans(a, b, c);
  }

  lemma ReachesMoves(a: Context, b: Context, c: Context)
    requires Reaches(a, b) && Moves(b, c)
    ensures Reaches(a, c)
  {
    MovesFrames(b, c);
    ReachesTrans(a, b, c);
  }

  /** Reaching then growing is growing. */
  lemma GrowsAfter(c: Context, d: Context, r: Outcome)
    requires Reaches(c, d) && Grows(d, r)
    ensures Grows(c, r)
  {
    if r.Ok? {
      ReachesTrans(c, d, r.value);
    }
  }

  lemma EmitMoves(c: Context, op: CC.Op)
    requires op.operand.Some? ==> CC.OperandInRange(op.operand.value)
    ensures Moves(c, Emit(c, op).0)
  {
    var d := Emit(c, op).0;
    assert d.chunk.code == c.chunk.code + CC.Encode(op.code, CC.EmitFields(op, |c.chunk.data|).0, CC.EmitFields(op, |c.chunk.data|).1);
  }

  lemma BareMoves(c: Context, code: O.Opcode)
    ensures Moves(c, Bare(c, code))
  {
    EmitMoves(c, CC.Op(code, None));
  }

  lemma WithUsizeMoves(c: Context, code: O.Opcode, n: nat)
    ensures Moves(c, WithUsize(c, code, n))
  {
    EmitMoves(c, CC.Op(code, Some(CC.Usize(n))));
  }

  lemma WithStringMoves(c: Context, code: O.Opcode, s: seq<u8>)
    ensures Moves(c, WithString(c, code, s))
  {
    EmitMoves(c, CC.Op(code, Some(CC.String(s))));
  }

  lemma PlaceholderMoves(c: Context, code: O.Opcode)
    ensures Moves(c, Placeholder(c, code).0) && Placeholder(c, code).1 == |c.chunk.code|
  {
    EmitMoves(c, CC.Op(code, Some(CC.Usize(USIZE_MAX))));
  }

  lemma LitMoves(c: Context, lit: Lit)
    ensures Moves(c, GenLit(c, lit))
  {
    match lit {
      case NumberLit(_, bits) => EmitMoves(c, CC.Op(O.Flt, Some(CC.F64(bits))));
      case BoolLit(_, b) => BareMoves(c, if b then O.Tru else O.Fls);
      case StringLit(_, text) => WithStringMoves(c, O.Str, text);
      case NullLit(_) => BareMoves(c, O.Nul);
    }
  }

  lemma {:induction false} SubjectMoves(c: Context, path: seq<seq<u8>>)
    ensures Moves(c, Subject(c, path))
    decreases path
  {
    if path != [] {
      var d := if path[0] == UTG then Bare(c, O.Utg) else Bare(WithString(c, O.Str, path[0]), O.Get);
      if path[0] == UTG {
        BareMoves(c, O.Utg);
      } else {
        WithStringMoves(c, O.Str, path[0]);
        BareMoves(WithString(c, O.Str, path[0]), O.Get);
      }
      SubjectMoves(d, path[1..]);
    }
  }

  /** A patch at or after `start` keeps every byte before `start`, and the code length. */
  lemma PatchAtKeeps(c0: Context, c: Context, offset: nat, target: nat)
    requires Extends(c0, c) && |c0.chunk.code| <= offset
    ensures var r := PatchAt(c, offset, target);
      r.Ok? ==> (Extends(c0, r.value) && r.value.parent == c.parent && r.value.localDepth == c.localDepth &&
                 r.value.locals == c.locals && |r.value.chunk.code| == |c.chunk.code|)
  {
    var r := PatchAt(c, offset, target);
    if r.Ok? {
      var after := r.value.chunk.code;
      assert after[..offset + 1] == c.chunk.code[..offset + 1];
      forall i | 0 <= i < |c0.chunk.code|
        ensures after[i] == c0.chunk.code[i]
      {
        assert after[i] == after[..offset + 1][i];
      }
    }
  }

  lemma {:induction false} PatchAllKeeps(c0: Context, c: Context, offsets: seq<nat>)
    requires Extends(c0, c) && forall k :: 0 <= k < |offsets| ==> |c0.chunk.code| <= offsets[k]
    ensures var r := PatchAll(c, offsets);
      r.Ok? ==> (Extends(c0, r.value) && r.value.parent == c.parent && r.value.localDepth == c.localDepth &&
                 r.value.locals == c.locals && |r.value.chunk.code| == |c.chunk.code|)
    decreases offsets
  {
    if offsets != [] {
      PatchAtKeeps(c0, c, offsets[0], OmaContext.Len(c));
      var d := PatchAt(c, offsets[0], OmaContext.Len(c));
      if d.Ok? {
        PatchAllKeeps(c0, d.value, offsets[1..]);
      }
    }
  }

  /** Resolving a capture changes only capture lists, all the way out. */
  lemma {:induction false} ResolveUpvalueFrames(c: Context, name: seq<u8>)
    ensures var d := ResolveUpvalue(c, name).0;
      d.chunk == c.chunk && d.locals == c.locals && SameFrames(c, d)
    decreases c
  {
    if c.parent.Some? {
      var parent := c.parent.value;
      if FindLocal(parent.locals, name).Some? {
        SameFramesRefl(c);
      } else {
        ResolveUpvalueFrames(parent, name);
      }
    }
  }

  lemma IdentGrows(reg: Registry, c: Context, ident: Ident)
    ensures Grows(c, GenIdent(reg, c, ident))
  {
    hide Moves, WithUsize;
    var local := FindLocal(c.locals, ident.content);
    if local.Some? {
      WithUsizeMoves(c, O.Lod, local.value);
      MovesFrames(c, WithUsize(c, O.Lod, local.value));
    } else {
      var (d, up) := ResolveUpvalue(c, ident.content);
      ResolveUpvalueFrames(c, ident.content);
      assert Reaches(c, d);
      var id := FindRegistry(reg, ident.content);
      if up.Some? {
        WithUsizeMoves(d, O.Lou, up.value);
        ReachesMoves(c, d, WithUsize(d, O.Lou, up.value));
      } else if id.Some? {
        WithUsizeMoves(d, O.Nal, id.value);
        ReachesMoves(c, d, WithUsize(d, O.Nal, id.value));
      }
    }
  }

  lemma ExtendsTrans(a: Context, b: Context, c: Context)
    requires Extends(a, b) && Extends(b, c)
    ensures Extends(a, c)
  {
  }

  lemma MovesTrans(a: Context, b: Context, c: Context)
    requires Moves(a, b) && Moves(b, c)
    ensures Moves(a, c)
  {
  }

  lemma MovesLen(c: Context, d: Context)
    requires Moves(c, d)
    ensures |c.chunk.code| <= |d.chunk.code|
  {
  }

  lemma AddLocalMoves(c: Context, ident: Ident)
    ensures Moves(c, AddLocal(c, ident).0)
  {
  }

  lemma DupSubjectMoves(c: Context, path: seq<seq<u8>>)
    ensures Moves(c, Subject(Bare(c, O.Dup), path))
  {
    BareMoves(c, O.Dup);
    SubjectMoves(Bare(c, O.Dup), path);
    MovesTrans(c, Bare(c, O.Dup), Subject(Bare(c, O.Dup), path));
  }

  // Patterns

  lemma {:induction false} StorePatGrows(c: Context, p: Pat, declare: bool)
    ensures var r := StorePat(c, p, declare); r.Ok? ==> Moves(c, r.value)
    decreases p, 1
  {
    hide Moves, Extends, Bare, WithUsize, WithString, AddLocal, StorePairs;
    match p {
      case IdentPat(ident) =>
        if declare {
          var (d, slot) := AddLocal(c, ident);
          AddLocalMoves(c, ident);
          WithUsizeMoves(d, O.Sav, slot);
          MovesTrans(c, d, WithUsize(d, O.Sav, slot));
        } else {
          var slot := FindLocal(c.locals, ident.content);
          if slot.Some? {
            WithUsizeMoves(c, O.Sav, slot.value);
          }
        }
      case TagPat(_, _, inner) =>
        var c1 := Bare(Bare(c, O.Dup), O.Utg);
        BareMoves(c, O.Dup);
        BareMoves(Bare(c, O.Dup), O.Utg);
        MovesTrans(c, Bare(c, O.Dup), c1);
        var d := StorePat(c1, inner, declare);
        StorePatGrows(c1, inner, declare);
        if d.Ok? {
          BareMoves(d.value, O.Pop);
          MovesTrans(c1, d.value, Bare(d.value, O.Pop));
          MovesTrans(c, c1, Bare(d.value, O.Pop));
        }
      case MapPat(_, pairs) => StorePairsGrows(c, pairs, declare);
      case _ =>
    }
  }

  lemma MovesRefl(c: Context)
    ensures Moves(c, c)
  {
  }

  lemma {:induction false} StorePairsGrows(c: Context, pairs: seq<MapPatPair>, declare: bool)
    ensures var r := StorePairs(c, pairs, declare); r.Ok? ==> Moves(c, r.value)
    decreases pairs, 0
  {
    hide Moves, Extends, Bare, WithString, StorePat;
    if pairs == [] {
      MovesRefl(c);
    } else {
      var pair := pairs[0];
      assert pair in pairs;
      match pair {
        case PatField(field, pat) =>
          assert pat < pair;
          var c0 := Bare(c, O.Dup);
          var c1 := WithString(c0, O.Str, field.content);
          var c2 := Bare(c1, O.Get);
          BareMoves(c, O.Dup);
          WithStringMoves(c0, O.Str, field.content);
          BareMoves(c1, O.Get);
          MovesTrans(c, c0, c1);
          MovesTrans(c, c1, c2);
          StorePatGrows(c2, pat, declare);
          var d := StorePat(c2, pat, declare);
          if d.Ok? {
            var d1 := Bare(d.value, O.Pop);
            BareMoves(d.value, O.Pop);
            MovesTrans(c, c2, d.value);
            MovesTrans(c, d.value, d1);
            StorePairsGrows(d1, pairs[1..], declare);
            var r := StorePairs(d1, pairs[1..], declare);
            if r.Ok? {
              MovesTrans(c, d1, r.value);
            }
          }
        case PatSpread(_) =>
      }
    }
  }

  /** The failure jumps a pattern adds are the ones before plus offsets at or after where it started. */
  predicate LaterJumps(c: Context, before: seq<nat>, after: seq<nat>) {
    forall k :: 0 <= k < |after| ==> after[k] in before || |c.chunk.code| <= after[k]
  }

  lemma LaterJumpsAdd(c: Context, d: Context, fails: seq<nat>, fail: nat)
    requires |c.chunk.code| <= fail
    ensures LaterJumps(c, fails, fails + [fail])
  {
  }

  /** Jumps later than d are later than c when d's code extends c's. */
  lemma LaterJumpsTrans(c: Context, d: Context, fails: seq<nat>, mid: seq<nat>, after: seq<nat>)
    requires |c.chunk.code| <= |d.chunk.code| && LaterJumps(c, fails, mid) && LaterJumps(d, mid, after)
    ensures LaterJumps(c, fails, after)
  {
    forall k | 0 <= k < |after|
      ensures after[k] in fails || |c.chunk.code| <= after[k]
    {
      if after[k] in mid {
        var j :| 0 <= j < |mid| && mid[j] == after[k];
      }
    }
  }

  lemma {:induction false} CasePatGrows(c: Context, fails: seq<nat>, path: seq<seq<u8>>, p: Pat)
    ensures var r := GenCasePat(c, fails, path, p);
      r.Ok? ==> Moves(c, r.value.0) && LaterJumps(c, fails, r.value.1)
    decreases p, 1
  {
    hide Moves, Extends, LaterJumps, Bare, WithString, WithUsize, Placeholder, Subject, GenLit, AddLocal, GenCasePairs;
    match p {
      case IdentPat(ident) =>
        var (d1, slot) := AddLocal(c, ident);
        AddLocalMoves(c, ident);
        DupSubjectMoves(d1, path);
        var d2 := Subject(Bare(d1, O.Dup), path);
        WithUsizeMoves(d2, O.Sav, slot);
        BareMoves(WithUsize(d2, O.Sav, slot), O.Pop);
        MovesTrans(c, d1, d2);
        MovesTrans(c, d2, WithUsize(d2, O.Sav, slot));
        MovesTrans(c, WithUsize(d2, O.Sav, slot), Bare(WithUsize(d2, O.Sav, slot), O.Pop));
        LaterJumpsSame(c, fails);
      case TagPat(_, tag, inner) =>
        var d0 := Subject(Bare(c, O.Dup), path);
        DupSubjectMoves(c, path);
        var d1 := Bare(d0, O.Gtg);
        BareMoves(d0, O.Gtg);
        var s1 := WithString(d1, O.Str, tag.content);
        WithStringMoves(d1, O.Str, tag.content);
        var e1 := Bare(s1, O.Eql);
        BareMoves(s1, O.Eql);
        PlaceholderMoves(e1, O.Jif);
        var (d2, fail) := Placeholder(e1, O.Jif);
        MovesTrans(c, d0, d1);
        MovesTrans(c, d1, s1);
        MovesTrans(c, s1, e1);
        MovesTrans(c, e1, d2);
        MovesLen(c, e1);
        MovesLen(c, d2);
        LaterJumpsAdd(c, d2, fails, fail);
        CasePatGrows(d2, fails + [fail], path + [UTG], inner);
        var r := GenCasePat(d2, fails + [fail], path + [UTG], inner);
        if r.Ok? {
          MovesTrans(c, d2, r.value.0);
          LaterJumpsTrans(c, d2, fails, fails + [fail], r.value.1);
        }
      case MapPat(_, pairs) => CasePairsGrows(c, fails, path, pairs);
      case LitPat(lit) =>
        var d0 := Subject(Bare(c, O.Dup), path);
        DupSubjectMoves(c, path);
        LitMoves(d0, lit);
        var e1 := Bare(GenLit(d0, lit), O.Eql);
        BareMoves(GenLit(d0, lit), O.Eql);
        PlaceholderMoves(e1, O.Jif);
        var (d2, fail) := Placeholder(e1, O.Jif);
        MovesTrans(c, d0, GenLit(d0, lit));
        MovesTrans(c, GenLit(d0, lit), e1);
        MovesTrans(c, e1, d2);
        MovesLen(c, e1);
        LaterJumpsAdd(c, d2, fails, fail);
      case ArrayPat(_, _) =>
    }
  }

  lemma LaterJumpsSame(c: Context, fails: seq<nat>)
    ensures LaterJumps(c, fails, fails)
  {
    forall k | 0 <= k < |fails|
      ensures fails[k] in fails
    {
    }
  }

  lemma {:induction false} CasePairsGrows(c: Context, fails: seq<nat>, path: seq<seq<u8>>, pairs: seq<MapPatPair>)
    ensures var r := GenCasePairs(c, fails, path, pairs);
      r.Ok? ==> Moves(c, r.value.0) && LaterJumps(c, fails, r.value.1)
    decreases pairs, 0
  {
    hide Moves, Extends, LaterJumps, Bare, WithString, Placeholder, Subject, GenCasePat;
    if pairs == [] {
      MovesRefl(c);
      LaterJumpsSame(c, fails);
    } else {
      var pair := pairs[0];
      assert pair in pairs;
      match pair {
        case PatField(field, pat) =>
          assert pat < pair;
          var s := Subject(Bare(c, O.Dup), path);
          DupSubjectMoves(c, path);
          var s1 := WithString(s, O.Str, field.content);
          WithStringMoves(s, O.Str, field.content);
          var s2 := Bare(s1, O.Get);
          BareMoves(s1, O.Get);
          var s3 := Bare(s2, O.Nul);
          BareMoves(s2, O.Nul);
          var d1 := Bare(s3, O.Eql);
          BareMoves(s3, O.Eql);
          PlaceholderMoves(d1, O.Jit);
          var (d2, fail) := Placeholder(d1, O.Jit);
          MovesTrans(c, s, s1);
          MovesTrans(c, s1, s2);
          MovesTrans(c, s2, s3);
          MovesTrans(c, s3, d1);
          MovesTrans(c, d1, d2);
          MovesLen(c, d1);
          MovesLen(c, d2);
          LaterJumpsAdd(c, d2, fails, fail);
          CasePatGrows(d2, fails + [fail], path + [field.content], pat);
          var q := GenCasePat(d2, fails + [fail], path + [field.content], pat);
          if q.Ok? {
            MovesTrans(c, d2, q.value.0);
            LaterJumpsTrans(c, d2, fails, fails + [fail], q.value.1);
            MovesLen(c, q.value.0);
            CasePairsGrows(q.value.0, q.value.1, path, pairs[1..]);
            var r := GenCasePairs(q.value.0, q.value.1, path, pairs[1..]);
            if r.Ok? {
              MovesTrans(c, q.value.0, r.value.0);
              LaterJumpsTrans(c, q.value.0, fails, q.value.1, r.value.1);
            }
          }
        case PatSpread(_) =>
      }
    }
  }
}
