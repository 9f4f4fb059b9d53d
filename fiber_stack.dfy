/**
 * A fiber's `Stack`: the value stack, the call frames, and the registry of
 * open upvalue cells. A cell is registered while it is open on a stack slot;
 * closing it moves the slot's value into the cell and drops it from the
 * registry, so the registry holds at most one open cell per slot.
 */
module FiberStack {
  import opened Wrappers
  import opened Values
  import ShuChunk

  /** A caller's saved chunk, instruction pointer and base pointer. */
  datatype Frame = Frame(chunk: ShuChunk.Chunk, ip: nat, bp: nat)

  /** Some cell in the list is open on that slot. */
  ghost predicate OpenIn(cells: seq<Cell>, slot: nat)
    reads cells
  {
    exists i :: 0 <= i < |cells| && cells[i].state == Open(slot)
  }

  class Stack {
    var frames: seq<Frame>
    var values: seq<Value>
    var upvalues: seq<Cell>

    /** Every registered cell is open, and no two are open on the same slot. */
    ghost predicate Valid()
      reads this, upvalues
    {
      (forall i :: 0 <= i < |upvalues| ==> upvalues[i].state.Open?)
      && (forall i, j :: 0 <= i < j < |upvalues| ==> upvalues[i].state.slot != upvalues[j].state.slot)
    }

    constructor ()
      ensures Valid()
      ensures frames == [] && values == [] && upvalues == []
    {
      frames := [];
      values := [];
      upvalues := [];
    }

    method Push(value: Value)
      modifies this
      ensures values == old(values) + [value]
      ensures frames == old(frames) && upvalues == old(upvalues)
    {
      values := values + [value];
    }

    /** `pop`: the top value, None on an empty stack; the upvalue registry is not consulted. */
    method Pop() returns (r: Option<Value>)
      modifies this
      ensures old(values) == [] ==> r.None? && values == []
      ensures old(values) != [] ==> r == Some(old(values)[|old(values)| - 1]) && values == old(values)[..|old(values)| - 1]
      ensures frames == old(frames) && upvalues == old(upvalues)
    {
      if |values| == 0 {
        return None;
      }
      r := Some(values[|values| - 1]);
      values := values[..|values| - 1];
    }

    /** `last`: the top value without removing it. */
    function Last(): (r: Option<Value>)
      reads this
      ensures r.Some? <==> values != []
      ensures r.Some? ==> r.value == values[|values| - 1]
    {
      if |values| == 0 then None else Some(values[|values| - 1])
    }

    /** `get`: the value in a slot, None past the top. */
    function Get(local: nat): (r: Option<Value>)
      reads this
      ensures r.Some? <==> local < |values|
      ensures r.Some? ==> r.value == values[local]
    {
      if local < |values| then Some(values[local]) else None
    }

    /** `set`: replaces exactly one slot; out of range it fails and nothing changes. */
    method Set(local: nat, value: Value) returns (ok: bool)
      modifies this
      ensures ok <==> local < old(|values|)
      ensures ok ==> values == old(values)[local := value]
      ensures !ok ==> values == old(values)
      ensures frames == old(frames) && upvalues == old(upvalues)
    {
      if local < |values| {
        values := values[local := value];
        ok := true;
      } else {
        ok := false;
      }
    }

    method PushFrame(frame: Frame)
      modifies this
      ensures frames == old(frames) + [frame]
      ensures values == old(values) && upvalues == old(upvalues)
    {
      frames := frames + [frame];
    }

    /** `pop_frame`: the most recent frame, None when there is none. */
    method PopFrame() returns (r: Option<Frame>)
      modifies this
      ensures old(frames) == [] ==> r.None? && frames == []
      ensures old(frames) != [] ==> r == Some(old(frames)[|old(frames)| - 1]) && frames == old(frames)[..|old(frames)| - 1]
      ensures values == old(values) && upvalues == old(upvalues)
    {
      if |frames| == 0 {
        return None;
      }
      r := Some(frames[|frames| - 1]);
      frames := frames[..|frames| - 1];
    }

    function IsFramesEmpty(): (r: bool)
      reads this
      ensures r <==> |frames| == 0
    {
      |frames| == 0
    }

    /**
     * `upvalue`: the registered cell open on that slot, or a fresh open cell
     * that is registered from now on.
     */
    method Upvalue(index: nat) returns (cell: Cell)
      requires Valid()
      modifies this
      ensures Valid()
      ensures cell.state == Open(index) && cell in upvalues
      ensures old(OpenIn(upvalues, index)) ==> upvalues == old(upvalues) && cell in old(upvalues)
      ensures !old(OpenIn(upvalues, index)) ==> fresh(cell) && upvalues == old(upvalues) + [cell]
      ensures values == old(values) && frames == old(frames)
    {
      var i := 0;
      while i < |upvalues|
        invariant i <= |upvalues|
        invariant forall k :: 0 <= k < i ==> upvalues[k].state != Open(index)
      {
        if upvalues[i].state == Open(index) {
          return upvalues[i];
        }
        i := i + 1;
      }
      cell := new Cell(Open(index));
      upvalues := upvalues + [cell];
    }

    /**
     * `close_upvalue`: pops the top value; if a cell is open on the slot it
     * occupied, that cell takes the value and leaves the registry. No other
     * cell changes. On an empty stack nothing happens and the result is false.
     */
    method CloseUpvalue() returns (ok: bool)
      requires Valid()
      modifies this, upvalues
      ensures Valid()
      ensures frames == old(frames)
      ensures ok <==> old(values) != []
      ensures !ok ==> values == old(values) && upvalues == old(upvalues)
      ensures ok ==> values == old(values)[..|old(values)| - 1]
      ensures ok ==> forall i :: 0 <= i < |old(upvalues)| ==>
        if old(upvalues[i].state) == Open(|values|) then
          old(upvalues)[i].state == Closed(old(values)[|values|])
          && upvalues == old(upvalues)[..i] + old(upvalues)[i + 1..]
          && old(upvalues)[i] !in upvalues
        else
          old(upvalues)[i].state == old(upvalues[i].state) && old(upvalues)[i] in upvalues
      ensures forall i :: 0 <= i < |upvalues| ==> upvalues[i] in old(upvalues)
      ensures forall c :: c in old(upvalues) && !(ok && old(c.state) == Open(|values|)) ==> unchanged(c)
      ensures ok && !old(OpenIn(upvalues, |values| - 1)) ==> upvalues == old(upvalues)
    {
      if |values| == 0 {
        return false;
      }
      var value := values[|values| - 1];
      values := values[..|values| - 1];
      var index := |values|;
      var p := 0;
      while p < |upvalues|
        invariant p <= |upvalues|
        invariant forall k :: 0 <= k < p ==> upvalues[k].state != Open(index)
      {
        if upvalues[p].state == Open(index) {
          break;
        }
        p := p + 1;
      }
      if p < |upvalues| {
        var cell := upvalues[p];
        assert forall k :: 0 <= k < |upvalues| && k != p ==> upvalues[k] != cell;
        upvalues := upvalues[..p] + upvalues[p + 1..];
        cell.state := Closed(value);
      }
      ok := true;
    }

    /**
     * The closing loop of `ret`: pop and close slots while the stack is
     * higher than low. Every registered cell open on a popped slot takes that
     * slot's value and leaves the registry; every other cell is untouched.
     */
    method CloseDownTo(low: nat)
      requires Valid()
      modifies this, upvalues
      ensures Valid() && frames == old(frames)
      ensures |values| == (if low <= |old(values)| then low else |old(values)|)
      ensures values == old(values)[..|values|]
      ensures forall i :: 0 <= i < |upvalues| ==> upvalues[i] in old(upvalues)
      ensures forall i :: 0 <= i < |old(upvalues)| ==>
        var c := old(upvalues)[i];
        if |values| <= old(c.state).slot < |old(values)| then c.state == Closed(old(values)[old(c.state).slot]) && c !in upvalues
        else c.state == old(c.state) && c in upvalues
      ensures forall c :: c in old(upvalues) && !(|values| <= old(c.state).slot < |old(values)|) ==> unchanged(c)
    {
      ghost var cells := upvalues;
      while |values| > low
        invariant Valid() && frames == old(frames)
        invariant (if low <= |old(values)| then low else |old(values)|) <= |values| <= |old(values)|
        invariant values == old(values)[..|values|]
        invariant forall i :: 0 <= i < |upvalues| ==> upvalues[i] in cells
        invariant forall i :: 0 <= i < |cells| ==>
          var c := cells[i];
          if |values| <= old(c.state).slot < |old(values)| then c.state == Closed(old(values)[old(c.state).slot]) && c !in upvalues
          else c.state == old(c.state) && c in upvalues
        invariant forall c :: c in cells && !(|values| <= old(c.state).slot < |old(values)|) ==> unchanged(c)
        decreases |values|
      {
        var _ := CloseUpvalue();
      }
    }

    /**
     * `build_trace`: one entry per frame, oldest first, locating the frame's
     * current instruction through its chunk's debug info. A loaded chunk never
     * carries debug info, so every entry is None.
     */
    method BuildTrace() returns (trace: seq<Option<nat>>)
      ensures |trace| == |frames|
      ensures forall i :: 0 <= i < |trace| ==> trace[i].None?
    {
      trace := [];
      for i := 0 to |frames|
        invariant |trace| == i
        invariant forall k :: 0 <= k < i ==> trace[k].None?
      {
        trace := trace + [None];
      }
    }
  }
}
