/** Little-endian integers of the three widths the encodings use. */
module LittleEndian {
  import opened Types

  function Pow256(n: nat): (p: nat)
    ensures p > 0
  {
    if n == 0 then 1 else 256 * Pow256(n - 1)
  }

  /** The `n` low-order bytes of `v`, least significant first (`to_le_bytes`). */
  function ToLe(v: nat, n: nat): (s: Bytes)
    ensures |s| == n
  {
    if n == 0 then [] else [v % 256] + ToLe(v / 256, n - 1)
  }

  /** The value of a little-endian byte string (`from_le_bytes`). */
  function FromLe(s: Bytes): (v: nat)
    ensures v < Pow256(|s|)
  {
    if s == [] then 0 else s[0] + 256 * FromLe(s[1..])
  }

  lemma {:induction false} FromToLe(v: nat, n: nat)
    requires v < Pow256(n)
    ensures FromLe(ToLe(v, n)) == v
  {
    if n > 0 {
      FromToLe(v / 256, n - 1);
      assert ToLe(v, n)[1..] == ToLe(v / 256, n - 1);
    }
  }

  lemma {:induction false} ToFromLe(s: Bytes)
    ensures ToLe(FromLe(s), |s|) == s
  {
    if s != [] {
      ToFromLe(s[1..]);
      var v := FromLe(s);
      assert v % 256 == s[0] && v / 256 == FromLe(s[1..]);
      assert s == [s[0]] + s[1..];
    }
  }

  /** Byte `i` of the encoding is the digit of weight 256^i. */
  lemma {:induction false} ToLeDigits(v: nat, n: nat, i: nat)
    requires i < n
    ensures ToLe(v, n)[i] == v / Pow256(i) % 256
  {
    if i > 0 {
      ToLeDigits(v / 256, n - 1, i - 1);
      DivideTwice(v, Pow256(i - 1));
    }
  }

  lemma DivideTwice(v: nat, p: nat)
    requires p > 0
    ensures v / 256 / p == v / (256 * p)
  {
    var q, r := v / 256 / p, v / 256 % p;
    assert v / 256 == q * p + r;
    var low := v % 256;
    assert v == 256 * (q * p + r) + low;
    assert v == (256 * p) * q + (256 * r + low);
    assert 256 * r + low < 256 * p;
    QuotientIs(v, 256 * p, q, 256 * r + low);
  }

  lemma QuotientIs(v: nat, d: nat, q: nat, r: nat)
    requires d > 0 && r < d && v == d * q + r
    ensures v / d == q
  {
    var k := v / d - q;
    assert d * k == r - v % d;
    SmallMultiple(d, k);
  }

  lemma SmallMultiple(d: int, k: int)
    requires -d < d * k < d
    ensures k == 0
  {
  }

  lemma Pow256Values()
    ensures Pow256(1) == 0x100
    ensures Pow256(2) == 0x1_0000
    ensures Pow256(4) == 0x1_0000_0000
    ensures Pow256(8) == 0x1_0000_0000_0000_0000
  {
  }

  function U16Le(v: u16): Bytes { ToLe(v, 2) }
  function U32Le(v: u32): Bytes { ToLe(v, 4) }
  function U64Le(v: u64): Bytes { ToLe(v, 8) }

  function U16FromLe(s: Bytes): u16
    requires |s| == 2
  {
    Pow256Values();
    FromLe(s)
  }

  function U32FromLe(s: Bytes): u32
    requires |s| == 4
  {
    Pow256Values();
    FromLe(s)
  }

  function U64FromLe(s: Bytes): u64
    requires |s| == 8
  {
    Pow256Values();
    FromLe(s)
  }

  lemma U16RoundTrip(v: u16)
    ensures U16FromLe(U16Le(v)) == v
  {
    Pow256Values();
    FromToLe(v, 2);
  }

  lemma U32RoundTrip(v: u32)
    ensures U32FromLe(U32Le(v)) == v
  {
    Pow256Values();
    FromToLe(v, 4);
  }

  lemma U64RoundTrip(v: u64)
    ensures U64FromLe(U64Le(v)) == v
  {
    Pow256Values();
    FromToLe(v, 8);
  }
}
