/**
 * Bytes, fixed-width unsigned ranges, little-endian encoding and Rust's
 * truncating integer division, as used by the bytecode, the binary container
 * and the toy virtual machine.
 */
module Bytes {
  newtype u8 = x: int | 0 <= x < 256

  /** Bytes read as characters, to compare them with keywords. */
  function CharsOf(b: seq<u8>): (r: string)
    ensures |r| == |b|
  {
    seq(|b|, i requires 0 <= i < |b| => (b[i] as int) as char)
  }

  /** The bytes of a text written in ASCII, such as a message. */
  function Ascii(s: string): (r: seq<u8>)
    ensures |r| == |s|
  {
    seq(|s|, i requires 0 <= i < |s| => ((s[i] as int) % 256) as u8)
  }

  /** 256 to the power n: the number of values an n-byte word can hold. */
  function Pow256(n: nat): (r: nat)
    ensures r >= 1
  {
    if n == 0 then 1 else 256 * Pow256(n - 1)
  }

  const U16_LIMIT: nat := 0x1_0000
  const U32_LIMIT: nat := 0x1_0000_0000
  const U64_LIMIT: nat := 0x1_0000_0000_0000_0000

  predicate IsU64(n: int) { 0 <= n < U64_LIMIT }

  /** The ranges of the 1-, 2-, 4- and 8-byte words. */
  lemma Pow256Widths()
    ensures Pow256(1) == 0x100 && Pow256(2) == U16_LIMIT && Pow256(4) == U32_LIMIT && Pow256(8) == U64_LIMIT
  {
  }

  /** The n low-order bytes of v, least significant first (`to_le_bytes` after masking to n bytes). */
  function LE(v: nat, n: nat): (r: seq<u8>)
    ensures |r| == n
  {
    if n == 0 then [] else [(v % 256) as u8] + LE(v / 256, n - 1)
  }

  /** The unsigned number a little-endian byte string denotes (`from_le_bytes`). */
  function FromLE(s: seq<u8>): nat {
    if s == [] then 0 else s[0] as nat + 256 * FromLE(s[1..])
  }

  /** n bytes denote a number below 256^n. */
  lemma {:induction false} FromLEBound(s: seq<u8>)
    ensures FromLE(s) < Pow256(|s|)
  {
    if s != [] {
      FromLEBound(s[1..]);
    }
  }

  lemma MulPositive(d: nat, k: int)
    requires d > 0 && k > 0
    ensures d * k >= d
  {
    if k > 1 {
      MulPositive(d, k - 1);
      assert d * k == d * (k - 1) + d;
    }
  }

  /** Quotient and remainder are the only ones with 0 <= r < d. */
  lemma ModUnique(v: nat, d: nat, q: nat, r: nat)
    requires 0 <= r < d
    requires v == d * q + r
    ensures v % d == r && v / d == q
  {
    var q', r' := v / d, v % d;
    assert v == d * q' + r';
    if q' > q {
      assert d * q' == d * q + d * (q' - q);
      MulPositive(d, q' - q);
    } else if q' < q {
      assert d * q == d * q' + d * (q - q');
      MulPositive(d, q - q');
    }
  }

  /** Splitting off the low byte commutes with reduction modulo 256·p. */
  lemma ModSplit(q: nat, r: nat, p: nat)
    requires r < 256 && p > 0
    ensures (256 * q + r) % (256 * p) == 256 * (q % p) + r
  {
    var k, m := q / p, q % p;
    assert q == p * k + m;
    assert 256 * q + r == (256 * p) * k + (256 * m + r) by {
      assert 256 * q == 256 * (p * k) + 256 * m;
      assert 256 * (p * k) == (256 * p) * k;
    }
    assert m <= p - 1;
    assert 256 * m <= 256 * (p - 1);
    ModUnique(256 * q + r, 256 * p, k, 256 * m + r);
  }

  /** Encoding then decoding n bytes gives back v modulo 256^n: the masking the encoders perform. */
  lemma {:induction false} FromLEOfLE(v: nat, n: nat)
    ensures FromLE(LE(v, n)) == v % Pow256(n)
  {
    if n > 0 {
      var q, r := v / 256, v % 256;
      FromLEOfLE(q, n - 1);
      assert LE(v, n)[1..] == LE(q, n - 1);
      assert v == 256 * q + r;
      ModSplit(q, r, Pow256(n - 1));
    }
  }

  /** Decoding then re-encoding a byte string gives the same bytes. */
  lemma {:induction false} LEOfFromLE(s: seq<u8>)
    ensures LE(FromLE(s), |s|) == s
  {
    if s != [] {
      var v := FromLE(s);
      LEOfFromLE(s[1..]);
      ModUnique(v, 256, FromLE(s[1..]), s[0] as nat);
    }
  }

  /** A value that fits in n bytes survives its own little-endian encoding. */
  lemma FromLEOfLESmall(v: nat, n: nat)
    requires v < Pow256(n)
    ensures FromLE(LE(v, n)) == v
  {
    FromLEOfLE(v, n);
  }

  /** Little-endian encodings of different widths determine each other: n bytes split as 1 + (n-1). */
  lemma LEPrefixDecode(v: nat, n: nat, rest: seq<u8>)
    requires v < Pow256(n)
    ensures FromLE((LE(v, n) + rest)[..n]) == v
  {
    assert (LE(v, n) + rest)[..n] == LE(v, n);
    FromLEOfLESmall(v, n);
  }

  // Rust integer division

  function Abs(x: int): nat {
    if x >= 0 then x else -x
  }

  /** Rust's `/` on integers: the quotient truncated toward zero. */
  function TruncDiv(a: int, b: int): int
    requires b != 0
  {
    var q: int := Abs(a) / Abs(b);
    if (a >= 0) == (b > 0) then q else -q
  }

  /** Rust's `%` on integers: the remainder with the sign of the dividend. */
  function TruncRem(a: int, b: int): int
    requires b != 0
  {
    a - b * TruncDiv(a, b)
  }

  /** Integer division and remainder recombine to the dividend, the remainder taking its sign. */
  lemma TruncDivRem(a: int, b: int)
    requires b != 0
    ensures a == b * TruncDiv(a, b) + TruncRem(a, b)
    ensures a >= 0 ==> 0 <= TruncRem(a, b) < Abs(b)
    ensures a < 0 ==> -(Abs(b) as int) < TruncRem(a, b) <= 0
  {
    var ua, ub := Abs(a), Abs(b);
    var q: int := ua / ub;
    assert ua == ub * q + ua % ub;
    if (a >= 0) == (b > 0) {
      assert TruncDiv(a, b) == q;
    } else {
      assert TruncDiv(a, b) == -q;
    }
  }

  /** A quotient of naturals is no larger than the dividend, and smaller when the divisor is 2 or more. */
  lemma DivBound(ua: nat, ub: nat)
    requires ub >= 1
    ensures ua / ub <= ua
    ensures ua > 0 && ub >= 2 ==> ua / ub < ua
  {
    var q := ua / ub;
    assert ub * q + ua % ub == ua;
    if q > 0 {
      MulPositive(q, ub);
      if ub >= 2 {
        MulPositive(q, ub - 1);
        assert q * ub == q * (ub - 1) + q;
      }
    }
  }

  /** A truncated quotient is no larger than the dividend, and as large only when the divisor is 1 or -1. */
  lemma TruncDivMagnitude(a: int, b: int)
    requires b != 0
    ensures Abs(TruncDiv(a, b)) <= Abs(a)
    ensures a != 0 && Abs(TruncDiv(a, b)) == Abs(a) ==> Abs(b) == 1
  {
    DivBound(Abs(a), Abs(b));
  }
}
