/** Little-endian byte strings: `to_le_bytes` and `from_le_bytes`. */
module Bytes {
  import opened Words
  import opened Bits

  function LeBytes(w: nat, n: nat): (r: seq<u8>)
    ensures |r| == n
  {
    if n == 0 then [] else [w % 0x100] + LeBytes(w / 0x100, n - 1)
  }

  function LeValue(s: seq<u8>): nat
  {
    if s == [] then 0 else s[0] + 0x100 * LeValue(s[1..])
  }

  lemma {:induction false} LeRoundTrip(w: nat, n: nat)
    requires w < Pow2(8 * n)
    ensures LeValue(LeBytes(w, n)) == w
  {
    if n > 0 {
      assert Pow2(8 * n) == 0x100 * Pow2(8 * (n - 1)) by { Pow2Byte(8 * (n - 1)); }
      LeRoundTrip(w / 0x100, n - 1);
      assert LeBytes(w, n)[1..] == LeBytes(w / 0x100, n - 1);
    }
  }

  lemma Pow2Byte(k: nat)
    ensures Pow2(k + 8) == 0x100 * Pow2(k)
  {
    assert Pow2(k + 2) == 4 * Pow2(k);
    assert Pow2(k + 4) == 4 * Pow2(k + 2);
    assert Pow2(k + 6) == 4 * Pow2(k + 4);
  }

  lemma {:induction false} LeValueBound(s: seq<u8>)
    ensures LeValue(s) < Pow2(8 * |s|)
  {
    if s != [] {
      Pow2Byte(8 * |s[1..]|);
      LeValueBound(s[1..]);
    }
  }

  lemma WordBound(bs: seq<u8>)
    requires |bs| == 4
    ensures LeValue(bs) < U32
  {
    LeValueBound(bs);
    Pow2At32();
  }

  lemma Pow2At32()
    ensures Pow2(32) == U32
  {
    assert Pow2(8) == 0x100 && Pow2(16) == 0x1_0000 && Pow2(24) == 0x100_0000;
  }
}
