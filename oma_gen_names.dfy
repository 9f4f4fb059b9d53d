/**
 * How the generator resolves a name: a slot of the current function (the
 * newest binding of that name), else a capture through the enclosing
 * functions, else a native name of the registry, else an unresolved
 * identifier. Assignment reaches only slots of the current function.
 */
module OmaGenNames {
  import opened Wrappers
  import opened Bytes
  import opened OmaAst
  import opened OmaContext
  import opened OmaGenSpec
  import O = Opcodes
  import Tokens

  /** Slot i is the newest slot of the current function named `name`. */
  predicate Newest(locals: seq<Local>, name: seq<u8>, i: nat) {
    i < |locals| && locals[i].ident.content == name && forall j :: i < j < |locals| ==> locals[j].ident.content != name
  }

  predicate NoSlot(locals: seq<Local>, name: seq<u8>) {
    forall j :: 0 <= j < |locals| ==> locals[j].ident.content != name
  }

  predicate NotRegistered(reg: Registry, name: seq<u8>) {
    forall i :: 0 <= i < |reg| ==> reg[i].0 != name
  }

  /** The newest slot with a name is unique. */
  lemma NewestUnique(locals: seq<Local>, name: seq<u8>, i: nat, k: nat)
    requires Newest(locals, name, i) && Newest(locals, name, k)
    ensures i == k
  {
  }

  /**
   * Locals first: when the current function has a slot of that name the
   * identifier loads the newest one, whatever the enclosing functions or the
   * registry hold.
   */
  lemma {:induction false} LocalsFirst(reg: Registry, c: Context, ident: Ident, i: nat)
    requires Newest(c.locals, ident.content, i)
    ensures GenIdent(reg, c, ident) == Ok(WithUsize(c, O.Lod, i))
  {
    var r := FindLocal(c.locals, ident.content);
    if r.Some? {
      NewestUnique(c.locals, ident.content, i, r.value);
    }
  }

  /** A new binding shadows every older one of the same name. */
  lemma Shadowing(reg: Registry, c: Context, binding: Ident, ident: Ident)
    requires binding.content == ident.content
    ensures var (d, slot) := AddLocal(c, binding);
      slot == |c.locals| && GenIdent(reg, d, ident) == Ok(WithUsize(d, O.Lod, slot))
  {
    var (d, slot) := AddLocal(c, binding);
    LocalsFirst(reg, d, ident, slot);
  }

  /** Some enclosing function, however far out, has a slot of that name. */
  predicate Enclosed(c: Context, name: seq<u8>)
    decreases c
  {
    c.parent.Some? && (!NoSlot(c.parent.value.locals, name) || Enclosed(c.parent.value, name))
  }

  /**
   * Capture succeeds exactly when an enclosing function binds the name, and
   * a failed capture leaves the context as it was.
   */
  lemma {:induction false} CaptureIffEnclosed(c: Context, name: seq<u8>)
    ensures var (d, up) := ResolveUpvalue(c, name);
      (up.Some? <==> Enclosed(c, name)) && (up.None? ==> d == c)
    decreases c
  {
    if c.parent.Some? {
      var parent := c.parent.value;
      if FindLocal(parent.locals, name).None? {
        CaptureIffEnclosed(parent, name);
      }
    }
  }

  /**
   * Without a local, the identifier loads a capture if the enclosing functions
   * provide one, else the first registry entry of that name, and only when
   * there is none of the three is it unresolved.
   */
  lemma NonLocal(reg: Registry, c: Context, ident: Ident)
    requires NoSlot(c.locals, ident.content)
    ensures var (d, up) := ResolveUpvalue(c, ident.content);
      var r := GenIdent(reg, c, ident);
      (up.Some? ==> r == Ok(WithUsize(d, O.Lou, up.value))) &&
      (up.None? ==> d == c) &&
      (up.None? && FindRegistry(reg, ident.content).Some? ==> r == Ok(WithUsize(c, O.Nal, FindRegistry(reg, ident.content).value))) &&
      (r.Err? <==> !Enclosed(c, ident.content) && NotRegistered(reg, ident.content)) &&
      (r.Err? ==> r.error == Unresolved(ident.span))
  {
    CaptureIffEnclosed(c, ident.content);
  }

  /** At the top level nothing can be captured: a name is a local, a registry name, or unresolved. */
  lemma TopLevelNames(reg: Registry, c: Context, ident: Ident)
    requires c.parent.None? && NoSlot(c.locals, ident.content)
    ensures var r := GenIdent(reg, c, ident);
      (r.Err? ==> r.error == Unresolved(ident.span)) &&
      (r.Ok? <==> !NotRegistered(reg, ident.content)) &&
      (r.Ok? ==> exists i :: 0 <= i < |reg| && reg[i].0 == ident.content && r.value == WithUsize(c, O.Nal, reg[i].1))
  {
    NonLocal(reg, c, ident);
  }

  /**
   * Assigning to an identifier stores (`Sav`) into the newest slot of that
   * name in the current function; with none it is unresolved, even when an
   * enclosing function has such a local, since no upvalue store is emitted.
   */
  lemma AssignToLocal(c: Context, ident: Ident)
    ensures var r := StorePat(c, IdentPat(ident), false);
      (r.Err? <==> NoSlot(c.locals, ident.content)) &&
      (r.Err? ==> r.error == Unresolved(ident.span)) &&
      (forall i :: Newest(c.locals, ident.content, i) ==> r == Ok(WithUsize(c, O.Sav, i)))
  {
    var f := FindLocal(c.locals, ident.content);
    forall i | Newest(c.locals, ident.content, i)
      ensures StorePat(c, IdentPat(ident), false) == Ok(WithUsize(c, O.Sav, i))
    {
      NewestUnique(c.locals, ident.content, i, f.value);
    }
  }

  /** A binding stores into a new slot, after every existing one. */
  lemma BindToNewSlot(c: Context, ident: Ident)
    ensures var r := StorePat(c, IdentPat(ident), true);
      r.Ok? && r.value.locals == c.locals + [Local(ident, c.localDepth)] &&
      r.value.chunk == WithUsize(c, O.Sav, |c.locals|).chunk
  {
  }
}
