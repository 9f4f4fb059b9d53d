/** The toy virtual machine's operand stack: a flat byte vector, popped by width. */
module ToyStack {
  import opened Wrappers
  import opened Bytes

  /** `pop`: the top `len` bytes and what remains below them, or nothing when fewer are held. */
  function PopOf(s: seq<u8>, len: nat): (r: Option<(seq<u8>, seq<u8>)>)
    ensures r.None? <==> len > |s|
    ensures r.Some? ==> r.value.1 + r.value.0 == s && |r.value.0| == len
  {
    if len > |s| then None else Some((s[|s| - len..], s[..|s| - len]))
  }

  /** Popping as many bytes as were just pushed gives them back and restores the stack. */
  lemma PopAfterPush(s: seq<u8>, b: seq<u8>)
    ensures PopOf(s + b, |b|) == Some((b, s))
  {
    var r := PopOf(s + b, |b|);
    assert r.value.0 == (s + b)[|s|..];
    assert (s + b)[|s|..] == b && (s + b)[..|s|] == s;
  }

  class Stack {
    var bytes: seq<u8>

    constructor ()
      ensures bytes == []
    {
      bytes := [];
    }

    /** `push`: the bytes go on top, in order. */
    method Push(b: seq<u8>)
      modifies this
      ensures bytes == old(bytes) + b
    {
      bytes := bytes + b;
    }

    /** `pop`: remove and return the top `len` bytes; too few is an error that leaves the stack as it was. */
    method Pop(len: nat) returns (r: Option<seq<u8>>)
      modifies this
      ensures PopOf(old(bytes), len).None? ==> r.None? && bytes == old(bytes)
      ensures PopOf(old(bytes), len).Some? ==> r == Some(PopOf(old(bytes), len).value.0) && bytes == PopOf(old(bytes), len).value.1
    {
      var n := |bytes|;
      if len > n {
        return None;
      }
      assert bytes[n - len..n] == bytes[n - len..];
      r := Some(bytes[n - len..n]);
      bytes := bytes[..n - len];
    }
  }
}
