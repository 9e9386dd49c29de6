/** Big-endian byte strings and the sizes `big.Int` reports for a number. */
module Bytes {

  newtype byte = b: int | 0 <= b < 256

  function Pow256(n: nat): (p: nat)
    ensures p > 0
  {
    if n == 0 then 1 else 256 * Pow256(n - 1)
  }

  /** `big.Int.BitLen` of a magnitude. */
  function BitLen(v: nat): nat {
    if v == 0 then 0 else 1 + BitLen(v / 2)
  }

  function ByteLen(v: nat): nat {
    (BitLen(v) + 7) / 8
  }

  /** The number a big-endian byte string stands for. */
  function Decode(bs: seq<byte>): nat {
    if bs == [] then 0 else 256 * Decode(bs[..|bs| - 1]) + bs[|bs| - 1] as nat
  }

  /** A number fits in `n` bytes exactly when it is below 256ⁿ. */
  lemma {:induction false} ByteLenFits(v: nat, n: nat)
    ensures ByteLen(v) <= n <==> v < Pow256(n)
    decreases n
  {
    EightBits(v);
    if n > 0 && v >= 256 {
      ByteLenFits(v / 256, n - 1);
    }
    if v < 256 {
      BitLenBound(v, 8);
    } else if n == 0 {
      BitLenBound(v, 0);
    }
  }

  lemma EightBits(v: nat)
    ensures v >= 256 ==> BitLen(v) == 8 + BitLen(v / 256)
  {
    if v >= 256 {
      assert v / 256 == v / 2 / 2 / 2 / 2 / 2 / 2 / 2 / 2;
      assert BitLen(v) == 2 + BitLen(v / 2 / 2);
      assert BitLen(v / 2 / 2) == 2 + BitLen(v / 2 / 2 / 2 / 2);
      assert BitLen(v / 2 / 2 / 2 / 2) == 2 + BitLen(v / 2 / 2 / 2 / 2 / 2 / 2);
    }
  }

  function Pow2(n: nat): (p: nat)
    ensures p > 0
  {
    if n == 0 then 1 else 2 * Pow2(n - 1)
  }

  lemma {:induction false} BitLenBound(v: nat, n: nat)
    ensures BitLen(v) <= n <==> v < Pow2(n)
  {
    if n > 0 && v > 0 {
      BitLenBound(v / 2, n - 1);
    }
  }

  lemma {:induction false} DecodeCons(b: byte, bs: seq<byte>)
    ensures Decode([b] + bs) == b as nat * Pow256(|bs|) + Decode(bs)
  {
    if bs != [] {
      var init := bs[..|bs| - 1];
      assert ([b] + bs)[..|bs|] == [b] + init;
      DecodeCons(b, init);
      ScaleSum(b as nat, Pow256(|init|), Decode(init));
    } else {
      assert [b] + bs == [b] && [b][..0] == [];
    }
  }

  lemma ScaleSum(b: nat, p: nat, d: nat)
    ensures 256 * (b * p + d) == b * (256 * p) + 256 * d
  {
  }

  /** `FillBytes`: writes `v` big-endian into the window, zero-extended; it must fit. */
  method FillBytes(a: array<byte>, lo: nat, hi: nat, v: nat)
    requires lo <= hi <= a.Length && v < Pow256(hi - lo)
    modifies a
    ensures a[..lo] == old(a[..lo]) && a[hi..] == old(a[hi..])
    ensures Decode(a[lo..hi]) == v
  {
    var i: nat, rest: nat := hi, v;
    assert rest * Pow256(0) + Decode(a[hi..hi]) == v;
    while i > lo
      invariant lo <= i <= hi
      invariant rest < Pow256(i - lo)
      invariant rest * Pow256(hi - i) + Decode(a[i..hi]) == v
      invariant a[..lo] == old(a[..lo]) && a[hi..] == old(a[hi..])
    {
      ghost var tail := a[i..hi];
      i := i - 1;
      a[i] := (rest % 256) as byte;
      assert a[i..hi] == [a[i]] + tail;
      DecodeCons(a[i], tail);
      SplitLowByte(rest, Pow256(|tail|));
      rest := rest / 256;
    }
    assert Pow256(i - lo) == 1 && rest == 0;
  }

  lemma SplitLowByte(rest: nat, p: nat)
    ensures rest * p == rest / 256 * (256 * p) + rest % 256 * p
  {
    var d, m := rest / 256, rest % 256;
    assert rest == 256 * d + m;
    assert (256 * d + m) * p == 256 * d * p + m * p;
  }

  /** Leading zero bytes do not change the number. */
  lemma {:induction false} DecodeLeadingZero(bs: seq<byte>, n: nat)
    requires n <= |bs| && forall i :: 0 <= i < n ==> bs[i] == 0
    ensures Decode(bs) == Decode(bs[n..])
    decreases n
  {
    if n > 0 {
      DecodeCons(bs[0], bs[1..]);
      assert bs == [bs[0]] + bs[1..];
      DecodeLeadingZero(bs[1..], n - 1);
      assert bs[1..][n - 1..] == bs[n..];
    } else {
      assert bs[0..] == bs;
    }
  }
}
