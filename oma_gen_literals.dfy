/**
 * The shape of what map and array literals lower to. A map is `Map`, then
 * per field `Dup`, the value, `Str` of the key, `Set`, `Pop`; an array is
 * `Arr`, then per item `Dup`, the value, `Apn`, `Pop`. Read against the shu
 * handlers (`set` pops key, value and receiver and pushes the value, `apn`
 * pops a value and an array and pushes the value), each entry finds its
 * operands where the handler pops them and leaves the stack as it found it,
 * with the container on top.
 */
module OmaGenLiterals {
  import opened Wrappers
  import opened Bytes
  import opened OmaAst
  import opened OmaContext
  import opened OmaGenSpec
  import opened OmaGenFrames
  import opened OmaGenGrowth
  import opened OmaGenJumps
  import O = Opcodes
  import ShuChunk
  import CC = CompilerChunk

  // The stack as the entry code sees it

  /** What a stack slot holds: the literal being built, an entry's value, or a field key. */
  datatype Cell = Receiver | Item | Key

  /** One step of an entry: an instruction, or a sub-expression's code, which leaves one value. */
  datatype Step = Instr(code: O.Opcode) | Operand

  /**
   * The stack a step leaves, or None when the handler would not find its
   * operands: `Dup` copies the top, `Map`/`Arr` push a new container, `Str`
   * a key, `Set` needs receiver, value and key and leaves the value, `Apn`
   * needs receiver and value and leaves the value, `Pop` drops the top.
   */
  function After(st: Step, s: seq<Cell>): Option<seq<Cell>> {
    var n := |s|;
    match st
    case Operand => Some(s + [Item])
    case Instr(code) =>
      match code
      case Dup => if n >= 1 then Some(s + [s[n - 1]]) else None
      case Map => Some(s + [Receiver])
      case Arr => Some(s + [Receiver])
      case Str => Some(s + [Key])
      case Set =>
        if n >= 3 && s[n - 3] == Receiver && s[n - 2] == Item && s[n - 1] == Key then Some(s[..n - 3] + [Item]) else None
      case Apn =>
        if n >= 2 && s[n - 2] == Receiver && s[n - 1] == Item then Some(s[..n - 2] + [Item]) else None
      case Pop => if n >= 1 then Some(s[..n - 1]) else None
      case _ => None
  }

  /** The steps in order; None as soon as one does not find its operands. */
  function Through(steps: seq<Step>, s: seq<Cell>): Option<seq<Cell>>
    decreases |steps|
  {
    if steps == [] then Some(s)
    else
      match After(steps[0], s)
      case None => None
      case Some(t) => Through(steps[1..], t)
  }

  /** The steps of one map field and of one array item. */
  const MapEntry: seq<Step> := [Instr(O.Dup), Operand, Instr(O.Str), Instr(O.Set), Instr(O.Pop)]
  const ArrayEntry: seq<Step> := [Instr(O.Dup), Operand, Instr(O.Apn), Instr(O.Pop)]

  /** k copies of an entry's steps. */
  function Repeat(entry: seq<Step>, k: nat): (r: seq<Step>)
    ensures |r| == k * |entry|
  {
    if k == 0 then [] else entry + Repeat(entry, k - 1)
  }

  lemma ThroughCons(st: Step, rest: seq<Step>, s: seq<Cell>)
    ensures Through([st] + rest, s) == (match After(st, s) case None => None case Some(t) => Through(rest, t))
  {
    assert ([st] + rest)[0] == st && ([st] + rest)[1..] == rest;
  }

  lemma {:induction false} ThroughJoin(a: seq<Step>, b: seq<Step>, s: seq<Cell>)
    ensures Through(a + b, s) == (match Through(a, s) case None => None case Some(t) => Through(b, t))
    decreases |a|
  {
    if a == [] {
      assert a + b == b;
    } else {
      assert a == [a[0]] + a[1..];
      assert a + b == [a[0]] + (a[1..] + b);
      ThroughCons(a[0], a[1..] + b, s);
      ThroughCons(a[0], a[1..], s);
      match After(a[0], s) {
        case None =>
        case Some(t) => ThroughJoin(a[1..], b, t);
      }
    }
  }

  /** A map field: the key, value and receiver are where `set` pops them, and the receiver is back on top. */
  lemma MapEntryBalanced(s: seq<Cell>)
    ensures Through(MapEntry, s + [Receiver]) == Some(s + [Receiver])
  {
    var t0 := s + [Receiver];
    var t1 := t0 + [Receiver];
    var t2 := t1 + [Item];
    var t3 := t2 + [Key];
    var t4 := t0 + [Item];
    assert After(Instr(O.Dup), t0) == Some(t1);
    assert After(Operand, t1) == Some(t2);
    assert After(Instr(O.Str), t2) == Some(t3);
    assert t3[..|t3| - 3] == t0;
    assert After(Instr(O.Set), t3) == Some(t4);
    assert t4[..|t4| - 1] == t0;
    assert After(Instr(O.Pop), t4) == Some(t0);
    hide After;
    ThroughCons(Instr(O.Pop), [], t4);
    ThroughCons(Instr(O.Set), [Instr(O.Pop)], t3);
    ThroughCons(Instr(O.Str), [Instr(O.Set), Instr(O.Pop)], t2);
    ThroughCons(Operand, [Instr(O.Str), Instr(O.Set), Instr(O.Pop)], t1);
    ThroughCons(Instr(O.Dup), [Operand, Instr(O.Str), Instr(O.Set), Instr(O.Pop)], t0);
  }

  /** An array item: the value and the array are where `apn` pops them, and the array is back on top. */
  lemma ArrayEntryBalanced(s: seq<Cell>)
    ensures Through(ArrayEntry, s + [Receiver]) == Some(s + [Receiver])
  {
    var t0 := s + [Receiver];
    var t1 := t0 + [Receiver];
    var t2 := t1 + [Item];
    var t3 := t0 + [Item];
    assert After(Instr(O.Dup), t0) == Some(t1);
    assert After(Operand, t1) == Some(t2);
    assert t2[..|t2| - 2] == t0;
    assert After(Instr(O.Apn), t2) == Some(t3);
    assert t3[..|t3| - 1] == t0;
    assert After(Instr(O.Pop), t3) == Some(t0);
    hide After;
    ThroughCons(Instr(O.Pop), [], t3);
    ThroughCons(Instr(O.Apn), [Instr(O.Pop)], t2);
    ThroughCons(Operand, [Instr(O.Apn), Instr(O.Pop)], t1);
    ThroughCons(Instr(O.Dup), [Operand, Instr(O.Apn), Instr(O.Pop)], t0);
  }

  /** Any number of balanced entries leave the container on top. */
  lemma {:induction false} EntriesBalanced(entry: seq<Step>, k: nat, s: seq<Cell>)
    requires entry == MapEntry || entry == ArrayEntry
    ensures Through(Repeat(entry, k), s + [Receiver]) == Some(s + [Receiver])
  {
    if k == 0 {
      assert Repeat(entry, k) == [];
    } else {
      if entry == MapEntry {
        MapEntryBalanced(s);
      } else {
        ArrayEntryBalanced(s);
      }
      assert Repeat(entry, k) == entry + Repeat(entry, k - 1);
      hide After, Through, Repeat, MapEntry, ArrayEntry;
      ThroughJoin(entry, Repeat(entry, k - 1), s + [Receiver]);
      EntriesBalanced(entry, k - 1, s);
    }
  }

  /** A whole literal with k entries pushes exactly one value, the container. */
  lemma LiteralPushesContainer(code: O.Opcode, k: nat, s: seq<Cell>)
    requires code == O.Map || code == O.Arr
    ensures Through([Instr(code)] + Repeat(if code == O.Map then MapEntry else ArrayEntry, k), s) == Some(s + [Receiver])
  {
    var entry := if code == O.Map then MapEntry else ArrayEntry;
    ThroughJoin([Instr(code)], Repeat(entry, k), s);
    EntriesBalanced(entry, k, s);
  }

  // The emitted code

  /** The opcode of the instruction byte at i. */
  function OpcodeAt(ch: ShuChunk.Chunk, i: nat): Option<O.Opcode> {
    if i < |ch.code| then ShuChunk.OpcodeOf(ch.code[i]) else None
  }

  lemma BareAt(c: Context, d: Context, code: O.Opcode)
    requires !O.HasOperand(code) && Extends(Bare(c, code), d)
    ensures |c.chunk.code| < |d.chunk.code| && OpcodeAt(d.chunk, |c.chunk.code|) == Some(code)
  {
    BareLast(c, code);
  }

  /** The `Str` instruction of a field key, and the pool entry it names. */
  lemma StrAt(d: Context, key: seq<u8>)
    ensures var e := WithString(d, O.Str, key);
      var m := |d.chunk.code|;
      var op := ShuChunk.OpAt(e.chunk, m);
      op.Some? && ShuChunk.OpcodeOf(op.value.byte) == Some(O.Str) &&
      |e.chunk.code| == m + 1 + ShuChunk.Size(op.value.byte) &&
      e.chunk.data == d.chunk.data + [ShuChunk.Text(key)] &&
      (IsU64(|d.chunk.data|) ==> op.value.operand == |d.chunk.data|)
  {
    var op := CC.Op(O.Str, Some(CC.String(key)));
    var (v, s) := CC.EmitFields(op, |d.chunk.data|);
    var e := WithString(d, O.Str, key);
    assert e.chunk.code == d.chunk.code + CC.Encode(O.Str, v, s) + [];
    CC.DecodeEncoded(e.chunk.data, d.chunk.code, O.Str, v, s, []);
    if IsU64(|d.chunk.data|) {
      CC.DecodeEmittedOperand(e.chunk.data, d.chunk.code, op, |d.chunk.data|, []);
    }
  }

  /**
   * `Generator::map_expr`'s loop, one field: with c the code so far and d
   * after `Dup` and the value, the field is `Dup` at |c|, the value's code,
   * a `Str` naming the key's pool entry, `Set` and `Pop`, and the next field
   * starts right after. `MapEntry` lists these steps and `MapEntryBalanced`
   * shows that together they leave the map where they found it.
   */
  lemma MapEntryShape(reg: Registry, c: Context, key: Ident, value: Expr, rest: seq<MapExprPair>, d: Context)
    requires GenExpr(reg, Bare(c, O.Dup), value) == Ok(d)
    ensures var n := Bare(Bare(WithString(d, O.Str, key.content), O.Set), O.Pop);
      var l := |c.chunk.code|;
      var m := |d.chunk.code|;
      var str := ShuChunk.OpAt(n.chunk, m);
      GenMapPairs(reg, c, [PairIdent(key, value)] + rest) == GenMapPairs(reg, n, rest) &&
      Extends(c, n) && Extends(Bare(c, O.Dup), d) && Extends(d, n) &&
      l < m && OpcodeAt(n.chunk, l) == Some(O.Dup) &&
      str.Some? && ShuChunk.OpcodeOf(str.value.byte) == Some(O.Str) &&
      (IsU64(|d.chunk.data|) ==> ShuChunk.ConstantAt(n.chunk, str.value.operand) == Some(ShuChunk.Text(key.content))) &&
      var w := 1 + ShuChunk.Size(str.value.byte);
      OpcodeAt(n.chunk, m + w) == Some(O.Set) && OpcodeAt(n.chunk, m + w + 1) == Some(O.Pop) &&
      |n.chunk.code| == m + w + 2
  {
    hide GenExpr, GenMapPairs, Bare, WithString, Emit;
    MapPairsStep(reg, c, key, value, rest, d);
    DupValue(reg, c, value, d);
    MapTail(d, key.content);
    var n := Bare(Bare(WithString(d, O.Str, key.content), O.Set), O.Pop);
    OpcodeKept(c, d, n, |c.chunk.code|);
  }

  /** The code after a field's value: `Str` of the key, `Set`, `Pop`. */
  lemma MapTail(d: Context, key: seq<u8>)
    ensures var n := Bare(Bare(WithString(d, O.Str, key), O.Set), O.Pop);
      var m := |d.chunk.code|;
      var str := ShuChunk.OpAt(n.chunk, m);
      Extends(d, n) &&
      str.Some? && ShuChunk.OpcodeOf(str.value.byte) == Some(O.Str) &&
      (IsU64(|d.chunk.data|) ==> ShuChunk.ConstantAt(n.chunk, str.value.operand) == Some(ShuChunk.Text(key))) &&
      var w := 1 + ShuChunk.Size(str.value.byte);
      OpcodeAt(n.chunk, m + w) == Some(O.Set) && OpcodeAt(n.chunk, m + w + 1) == Some(O.Pop) &&
      |n.chunk.code| == m + w + 2
  {
    var e := WithString(d, O.Str, key);
    StrAt(d, key);
    WithStringMoves(d, O.Str, key);
    var st := Bare(e, O.Set);
    BareData(e, O.Set);
    BareLast(e, O.Set);
    BareMoves(e, O.Set);
    var n := Bare(st, O.Pop);
    BareData(st, O.Pop);
    BareLast(st, O.Pop);
    BareMoves(st, O.Pop);
    hide Bare, WithString, Emit;
    var m := |d.chunk.code|;
    LandsPrefix(e.chunk, n.chunk, m);
    ExtendsTrans(e, st, n);
    BareAt(e, n, O.Set);
    BareAt(st, n, O.Pop);
    ExtendsTrans(d, e, n);
  }

  /** An instruction without an operand adds no pool entry. */
  lemma BareData(c: Context, code: O.Opcode)
    ensures Bare(c, code).chunk.data == c.chunk.data
  {
  }

  /**
   * `Generator::array_expr`'s loop, one item: `Dup` at |c|, the value's code,
   * `Apn` and `Pop`, and the next item starts right after. `ArrayEntry` lists
   * these steps and `ArrayEntryBalanced` shows that they leave the array where
   * they found it.
   */
  lemma ArrayItemShape(reg: Registry, c: Context, value: Expr, rest: seq<ArrayExprItem>, d: Context)
    requires GenExpr(reg, Bare(c, O.Dup), value) == Ok(d)
    ensures var n := Bare(Bare(d, O.Apn), O.Pop);
      var l := |c.chunk.code|;
      var m := |d.chunk.code|;
      GenArrayItems(reg, c, [ItemExpr(value)] + rest) == GenArrayItems(reg, n, rest) &&
      Extends(c, n) && Extends(Bare(c, O.Dup), d) && Extends(d, n) &&
      l < m && OpcodeAt(n.chunk, l) == Some(O.Dup) &&
      OpcodeAt(n.chunk, m) == Some(O.Apn) && OpcodeAt(n.chunk, m + 1) == Some(O.Pop) &&
      |n.chunk.code| == m + 2
  {
    hide GenExpr, GenArrayItems;
    ArrayItemsStep(reg, c, value, rest, d);
    DupValue(reg, c, value, d);
    ArrayTail(d);
    OpcodeKept(c, d, Bare(Bare(d, O.Apn), O.Pop), |c.chunk.code|);
  }

  /** The code after an item's value: `Apn`, `Pop`. */
  lemma ArrayTail(d: Context)
    ensures var n := Bare(Bare(d, O.Apn), O.Pop);
      var m := |d.chunk.code|;
      Extends(d, n) && OpcodeAt(n.chunk, m) == Some(O.Apn) && OpcodeAt(n.chunk, m + 1) == Some(O.Pop) &&
      |n.chunk.code| == m + 2
  {
    var ap := Bare(d, O.Apn);
    BareLast(d, O.Apn);
    BareMoves(d, O.Apn);
    var n := Bare(ap, O.Pop);
    BareLast(ap, O.Pop);
    BareMoves(ap, O.Pop);
    ExtendsTrans(d, ap, n);
  }

  // Plumbing

  /** An entry's `Dup` and value: the code so far, `Dup` at its end, then the value's code. */
  lemma DupValue(reg: Registry, c: Context, value: Expr, d: Context)
    requires GenExpr(reg, Bare(c, O.Dup), value) == Ok(d)
    ensures Extends(Bare(c, O.Dup), d) && Extends(c, d)
    ensures |c.chunk.code| < |d.chunk.code| && OpcodeAt(d.chunk, |c.chunk.code|) == Some(O.Dup)
  {
    var dup := Bare(c, O.Dup);
    BareMoves(c, O.Dup);
    ExprGrows(reg, dup, value);
    BareAt(c, d, O.Dup);
    ExtendsTrans(c, dup, d);
  }

  lemma OpcodeKept(c: Context, d: Context, n: Context, i: nat)
    requires Extends(c, d) && Extends(d, n) && i < |d.chunk.code|
    ensures Extends(c, n) && OpcodeAt(n.chunk, i) == OpcodeAt(d.chunk, i)
  {
  }

  lemma MapPairsStep(reg: Registry, c: Context, key: Ident, value: Expr, rest: seq<MapExprPair>, d: Context)
    requires GenExpr(reg, Bare(c, O.Dup), value) == Ok(d)
    ensures GenMapPairs(reg, c, [PairIdent(key, value)] + rest) ==
      GenMapPairs(reg, Bare(Bare(WithString(d, O.Str, key.content), O.Set), O.Pop), rest)
  {
    hide GenExpr, Bare, WithString;
    var pairs := [PairIdent(key, value)] + rest;
    assert pairs[0] == PairIdent(key, value) && pairs[1..] == rest;
  }

  lemma ArrayItemsStep(reg: Registry, c: Context, value: Expr, rest: seq<ArrayExprItem>, d: Context)
    requires GenExpr(reg, Bare(c, O.Dup), value) == Ok(d)
    ensures GenArrayItems(reg, c, [ItemExpr(value)] + rest) == GenArrayItems(reg, Bare(Bare(d, O.Apn), O.Pop), rest)
  {
    hide GenExpr, Bare;
    var items := [ItemExpr(value)] + rest;
    assert items[0] == ItemExpr(value) && items[1..] == rest;
  }

  /** An instruction that ends before the appended bytes decodes the same. */
  lemma LandsPrefix(a: ShuChunk.Chunk, b: ShuChunk.Chunk, o: nat)
    requires |a.code| <= |b.code| && (forall i :: 0 <= i < |a.code| ==> b.code[i] == a.code[i])
    requires ShuChunk.OpAt(a, o).Some?
    ensures ShuChunk.OpAt(b, o) == ShuChunk.OpAt(a, o)
  {
    var op := ShuChunk.OpAt(a, o).value;
    var k := ShuChunk.Size(op.byte);
    assert a.code[o + 1..o + 1 + k] == b.code[o + 1..o + 1 + k];
    var q := ShuChunk.OpAt(b, o).value;
    FromLEOfLE(op.operand, k);
    FromLEOfLE(q.operand, k);
  }
}
