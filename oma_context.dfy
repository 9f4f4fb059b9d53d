/**
 * The code generator's per-function state: the locals in scope with the
 * scope depth each was bound at, the captured upvalues, the chunk being
 * built, and the enclosing function's state. The generator owns this state
 * outright and swaps it when it enters and leaves a lambda, so it is
 * modelled as a value that each operation replaces.
 */
module OmaContext {
  import opened Wrappers
  import opened Bytes
  import opened Source
  import opened ShuChunk
  import opened OmaAst
  import CompilerChunk

  /** A local slot: the identifier bound there and the scope depth it was bound at. */
  datatype Local = Local(ident: Ident, depth: nat)

  datatype Context = Context(parent: Option<Context>, locals: seq<Local>, localDepth: nat, upvalues: seq<UpvalueDesc>, chunk: Chunk)

  /** The name of slot 0, which holds the running lambda itself. */
  const LAMBDA: seq<u8> := [0x5F, 0x5F, 0x6C, 0x61, 0x6D, 0x62, 0x64, 0x61] // "__lambda"

  /** `Context::with_parent` (and `Context::new` without a parent): slot 0 taken by the lambda, depth 0, nothing captured or emitted. */
  function WithParent(parent: Option<Context>): (c: Context)
    ensures c.parent == parent && c.locals == [Local(Ident(Empty(), LAMBDA), 0)]
    ensures c.localDepth == 0 && c.upvalues == [] && c.chunk == Chunk([], [])
  {
    Context(parent, [Local(Ident(Empty(), LAMBDA), 0)], 0, [], Chunk([], []))
  }

  function New(): (c: Context)
    ensures c == WithParent(None)
  {
    WithParent(None)
  }

  /** `len`: the code length, which is the offset the next instruction starts at. */
  function Len(c: Context): nat {
    |c.chunk.code|
  }

  /** `emit`, returning the offset the instruction starts at. */
  function Emit(c: Context, op: CompilerChunk.Op): (r: (Context, nat))
    requires op.operand.Some? ==> CompilerChunk.OperandInRange(op.operand.value)
    ensures r.1 == Len(c)
    ensures r.0 == c.(chunk := CompilerChunk.Emitted(c.chunk, op))
  {
    (c.(chunk := CompilerChunk.Emitted(c.chunk, op)), Len(c))
  }

  /** `patch` with a `usize` operand; the source's `unwrap` panics when the operand bytes lie outside the code. */
  function Patch(c: Context, offset: nat, n: nat): (r: Option<Context>)
    ensures r.Some? <==> CompilerChunk.PatchFits(c.chunk, offset)
    ensures r.Some? ==> r.value == c.(chunk := CompilerChunk.Patched(c.chunk, offset, CompilerChunk.Usize(n)))
  {
    if CompilerChunk.PatchFits(c.chunk, offset) then Some(c.(chunk := CompilerChunk.Patched(c.chunk, offset, CompilerChunk.Usize(n))))
    else None
  }

  /** `add_local`: bind at the current depth; the slot is the new entry's position. */
  function AddLocal(c: Context, ident: Ident): (r: (Context, nat))
    ensures r.0 == c.(locals := c.locals + [Local(ident, c.localDepth)])
    ensures r.1 == |c.locals| && r.0.locals[r.1] == Local(ident, c.localDepth)
  {
    (c.(locals := c.locals + [Local(ident, c.localDepth)]), |c.locals|)
  }

  /** `enter_scope`. */
  function EnterScope(c: Context): (r: Context)
    ensures r == c.(localDepth := c.localDepth + 1)
  {
    c.(localDepth := c.localDepth + 1)
  }

  // Looking up a local

  /** The newest slot bound to that name, if any: a later binding shadows an earlier one. */
  function FindLocal(locals: seq<Local>, name: seq<u8>): (r: Option<nat>)
    ensures r.Some? ==> r.value < |locals| && locals[r.value].ident.content == name
    ensures r.Some? ==> forall j :: r.value < j < |locals| ==> locals[j].ident.content != name
    ensures r.None? ==> forall j :: 0 <= j < |locals| ==> locals[j].ident.content != name
  {
    if locals == [] then None
    else if locals[|locals| - 1].ident.content == name then Some(|locals| - 1)
    else FindLocal(locals[..|locals| - 1], name)
  }

  /** `local`: search the slots from the newest down. */
  method LocalOf(c: Context, ident: Ident) returns (r: Option<nat>)
    ensures r == FindLocal(c.locals, ident.content)
  {
    var index := |c.locals|;
    while index > 0
      invariant 0 <= index <= |c.locals|
      invariant FindLocal(c.locals, ident.content) == FindLocal(c.locals[..index], ident.content)
    {
      index := index - 1;
      assert c.locals[..index + 1][..index] == c.locals[..index];
      if c.locals[index].ident.content == ident.content {
        return Some(index);
      }
    }
    return None;
  }

  // Capturing upvalues

  /** The first position holding u, if any. */
  function Position(upvalues: seq<UpvalueDesc>, u: UpvalueDesc): (r: Option<nat>)
    ensures r.Some? <==> u in upvalues
    ensures r.Some? ==> r.value < |upvalues| && upvalues[r.value] == u && u !in upvalues[..r.value]
  {
    if upvalues == [] then None
    else if upvalues[0] == u then Some(0)
    else
      var p := Position(upvalues[1..], u);
      assert forall x :: x in upvalues[1..] ==> x in upvalues;
      if p.Some? then
        assert upvalues[..p.value + 1] == [upvalues[0]] + upvalues[1..][..p.value];
        Some(p.value + 1)
      else None
  }

  /** `add_upvalue`: an equal capture already listed is reused, otherwise u is appended. */
  function AddUpvalue(c: Context, u: UpvalueDesc): (r: (Context, nat))
    ensures r.1 < |r.0.upvalues| && r.0.upvalues[r.1] == u
    ensures u in c.upvalues ==> r.0 == c
    ensures u !in c.upvalues ==> r.0 == c.(upvalues := c.upvalues + [u]) && r.1 == |c.upvalues|
  {
    var p := Position(c.upvalues, u);
    if p.Some? then (c, p.value) else (c.(upvalues := c.upvalues + [u]), |c.upvalues|)
  }

  method AddUpvalueTo(c: Context, u: UpvalueDesc) returns (c': Context, index: nat)
    ensures (c', index) == AddUpvalue(c, u)
  {
    var i := 0;
    while i < |c.upvalues|
      invariant 0 <= i <= |c.upvalues| && u !in c.upvalues[..i]
    {
      if c.upvalues[i] == u {
        assert Position(c.upvalues, u) == Some(i) by {
          UniquePosition(c.upvalues, u, i);
        }
        return c, i;
      }
      assert c.upvalues[..i + 1] == c.upvalues[..i] + [c.upvalues[i]];
      i := i + 1;
    }
    assert c.upvalues[..i] == c.upvalues;
    c' := c.(upvalues := c.upvalues + [u]);
    index := |c.upvalues|;
  }

  lemma UniquePosition(upvalues: seq<UpvalueDesc>, u: UpvalueDesc, i: nat)
    requires i < |upvalues| && upvalues[i] == u && u !in upvalues[..i]
    ensures Position(upvalues, u) == Some(i)
  {
  }

  /**
   * `upvalue`: a name bound in the enclosing function's locals is captured
   * from that slot; one the enclosing function itself captures (resolved
   * recursively further out) is captured from that upvalue; without an
   * enclosing function there is nothing to capture.
   */
  function ResolveUpvalue(c: Context, name: seq<u8>): (r: (Context, Option<nat>))
    decreases c
  {
    if c.parent.None? then (c, None)
    else
      var parent := c.parent.value;
      var local := FindLocal(parent.locals, name);
      if local.Some? then
        var (c', index) := AddUpvalue(c, UpvalueDesc(local.value, true));
        (c', Some(index))
      else
        var (parent', up) := ResolveUpvalue(parent, name);
        var c1 := c.(parent := Some(parent'));
        if up.Some? then
          var (c', index) := AddUpvalue(c1, UpvalueDesc(up.value, false));
          (c', Some(index))
        else (c1, None)
  }

  method UpvalueOf(c: Context, ident: Ident) returns (c': Context, r: Option<nat>)
    ensures (c', r) == ResolveUpvalue(c, ident.content)
    decreases c
  {
    if c.parent.None? {
      return c, None;
    }
    var parent := c.parent.value;
    var local := LocalOf(parent, ident);
    if local.Some? {
      var index;
      c', index := AddUpvalueTo(c, UpvalueDesc(local.value, true));
      return c', Some(index);
    }
    var parent', up := UpvalueOf(parent, ident);
    var c1 := c.(parent := Some(parent'));
    if up.Some? {
      var index;
      c', index := AddUpvalueTo(c1, UpvalueDesc(up.value, false));
      return c', Some(index);
    }
    return c1, None;
  }

  // Leaving a scope

  /** The slots bound outside the scope being left, in order. */
  function Kept(locals: seq<Local>, depth: nat): seq<Local> {
    if locals == [] then []
    else Kept(locals[..|locals| - 1], depth) + (if locals[|locals| - 1].depth >= depth then [] else [locals[|locals| - 1]])
  }

  /** How many slots the scope being left had bound. */
  function Dropped(locals: seq<Local>, depth: nat): nat {
    if locals == [] then 0
    else Dropped(locals[..|locals| - 1], depth) + (if locals[|locals| - 1].depth >= depth then 1 else 0)
  }

  /**
   * `exit_scope`: drop every slot bound at the current depth or deeper,
   * return how many, and go one level out. The source's `usize` subtraction
   * demands an open scope.
   */
  function ExitScope(c: Context): (r: (Context, nat))
    requires c.localDepth > 0
  {
    (c.(locals := Kept(c.locals, c.localDepth), localDepth := c.localDepth - 1), Dropped(c.locals, c.localDepth))
  }

  method ExitScopeOf(c: Context) returns (c': Context, popCount: nat)
    requires c.localDepth > 0
    ensures (c', popCount) == ExitScope(c)
  {
    var kept: seq<Local> := [];
    popCount := 0;
    var i := 0;
    while i < |c.locals|
      invariant 0 <= i <= |c.locals|
      invariant kept == Kept(c.locals[..i], c.localDepth) && popCount == Dropped(c.locals[..i], c.localDepth)
    {
      assert c.locals[..i + 1][..i] == c.locals[..i];
      if c.locals[i].depth >= c.localDepth {
        popCount := popCount + 1;
      } else {
        kept := kept + [c.locals[i]];
      }
      i := i + 1;
    }
    assert c.locals[..i] == c.locals;
    c' := c.(locals := kept, localDepth := c.localDepth - 1);
  }

  // What the context operations guarantee

  /** Leaving a scope keeps exactly the slots bound outside it, in their order, and counts the rest. */
  lemma {:induction false} KeptExactly(locals: seq<Local>, depth: nat)
    ensures forall x :: x in Kept(locals, depth) <==> x in locals && x.depth < depth
  {
    if locals != [] {
      var init := locals[..|locals| - 1];
      KeptExactly(init, depth);
      assert locals == init + [locals[|locals| - 1]];
    }
  }

  lemma {:induction false} KeptCount(locals: seq<Local>, depth: nat)
    ensures |Kept(locals, depth)| + Dropped(locals, depth) == |locals|
    ensures Dropped(locals, depth) == 0 ==> Kept(locals, depth) == locals
  {
    if locals != [] {
      var init := locals[..|locals| - 1];
      KeptCount(init, depth);
      assert locals == init + [locals[|locals| - 1]];
    }
  }

  /** The slots bound before the scope was entered keep their positions. */
  lemma {:induction false} KeptPrefix(locals: seq<Local>, depth: nat, n: nat)
    requires n <= |locals| && forall i :: 0 <= i < n ==> locals[i].depth < depth
    ensures n <= |Kept(locals, depth)| && Kept(locals, depth)[..n] == locals[..n]
    decreases |locals|
  {
    if |locals| > n {
      var init := locals[..|locals| - 1];
      KeptPrefix(init, depth, n);
      assert init[..n] == locals[..n];
      var last := if locals[|locals| - 1].depth >= depth then [] else [locals[|locals| - 1]];
      assert Kept(locals, depth) == Kept(init, depth) + last;
      assert (Kept(init, depth) + last)[..n] == Kept(init, depth)[..n];
    } else {
      KeptAll(locals, depth);
    }
  }

  lemma {:induction false} KeptAll(locals: seq<Local>, depth: nat)
    requires forall i :: 0 <= i < |locals| ==> locals[i].depth < depth
    ensures Kept(locals, depth) == locals
  {
    if locals != [] {
      var init := locals[..|locals| - 1];
      KeptAll(init, depth);
      assert locals == init + [locals[|locals| - 1]];
    }
  }

  /**
   * A context keeps the running lambda in slot 0 at depth 0, so every slot
   * `add_local` hands out is at least 1.
   */
  predicate HoldsLambda(c: Context) {
    |c.locals| >= 1 && c.locals[0] == Local(Ident(Empty(), LAMBDA), 0)
  }

  lemma NewHoldsLambda(parent: Option<Context>)
    ensures HoldsLambda(WithParent(parent))
  {
  }

  lemma AddLocalAfterLambda(c: Context, ident: Ident)
    requires HoldsLambda(c)
    ensures AddLocal(c, ident).1 >= 1 && HoldsLambda(AddLocal(c, ident).0)
  {
  }

  lemma ExitScopeHoldsLambda(c: Context)
    requires HoldsLambda(c) && c.localDepth > 0
    ensures HoldsLambda(ExitScope(c).0)
  {
    KeptPrefix(c.locals, c.localDepth, 1);
  }

  /** `upvalue` reuses an equal capture, so a capture list without duplicates stays without them. */
  predicate Distinct(upvalues: seq<UpvalueDesc>) {
    forall i, j :: 0 <= i < j < |upvalues| ==> upvalues[i] != upvalues[j]
  }

  lemma {:induction false} AddUpvalueDistinct(c: Context, u: UpvalueDesc)
    requires Distinct(c.upvalues)
    ensures Distinct(AddUpvalue(c, u).0.upvalues)
  {
    if u !in c.upvalues {
      var s := c.upvalues + [u];
      forall i, j | 0 <= i < j < |s| ensures s[i] != s[j] {
        if j == |c.upvalues| {
          assert s[i] in c.upvalues;
        }
      }
    }
  }

  /**
   * The three outcomes of resolving a captured name: from the enclosing
   * function's slot (newest binding first), from the enclosing function's own
   * capture, or nothing at all when there is no enclosing function.
   */
  lemma ResolveUpvalueCases(c: Context, name: seq<u8>)
    ensures c.parent.None? ==> ResolveUpvalue(c, name) == (c, None)
    ensures c.parent.Some? && FindLocal(c.parent.value.locals, name).Some? ==>
      var (c', r) := ResolveUpvalue(c, name);
      r.Some? && c'.upvalues[r.value] == UpvalueDesc(FindLocal(c.parent.value.locals, name).value, true)
    ensures c.parent.Some? && FindLocal(c.parent.value.locals, name).None? ==>
      var (c', r) := ResolveUpvalue(c, name);
      var (p', up) := ResolveUpvalue(c.parent.value, name);
      c'.parent == Some(p') && (r.Some? <==> up.Some?) && (r.Some? ==> c'.upvalues[r.value] == UpvalueDesc(up.value, false))
  {
  }

  /** Resolution only ever appends captures, and keeps them free of duplicates, all the way out. */
  predicate AllDistinct(c: Context)
    decreases c
  {
    Distinct(c.upvalues) && (c.parent.Some? ==> AllDistinct(c.parent.value))
  }

  lemma {:induction false} ResolveUpvalueDistinct(c: Context, name: seq<u8>)
    requires AllDistinct(c)
    ensures AllDistinct(ResolveUpvalue(c, name).0)
    ensures ResolveUpvalue(c, name).0.locals == c.locals && ResolveUpvalue(c, name).0.chunk == c.chunk
    decreases c
  {
    if c.parent.Some? {
      var parent := c.parent.value;
      var local := FindLocal(parent.locals, name);
      if local.Some? {
        AddUpvalueDistinct(c, UpvalueDesc(local.value, true));
      } else {
        ResolveUpvalueDistinct(parent, name);
        var (parent', up) := ResolveUpvalue(parent, name);
        var c1 := c.(parent := Some(parent'));
        if up.Some? {
          AddUpvalueDistinct(c1, UpvalueDesc(up.value, false));
        }
      }
    }
  }
}
