/**
 ECDSA verification (section 4.1.4 of SEC 1 version 2.0) over scalars, and the low-S rule of EIP-2
 that the signer applies to what the threshold library returns.
 */
module Ecdsa {
  import opened Curves
  import opened ModularArithmetic

  /** The scalar of the point u1·G + u2·Q computed during verification. */
  function NonceScalar(c: Curve, q: int, z: int, r: int, s: int): (k: int)
    requires c.order > 1
    ensures 0 <= k < c.order
  {
    var w := Inverse(s, c.order);
    Mod(z * w + r * w * q, c.order)
  }

  /** Verification of (r, s) for digest `z` under the public key of scalar `q`. */
  predicate Verifies(c: Curve, q: int, z: int, r: int, s: int)
    requires c.order > 1
  {
    && 0 < r < c.order
    && 0 < s < c.order
    && var k := NonceScalar(c, q, z, r, s);
       k != 0 && Mod(c.x(k), c.order) == r
  }

  // ---- Low-S ----

  predicate IsLowS(n: int, s: int) {
    s <= n / 2
  }

  function LowS(n: int, s: int): int {
    if IsLowS(n, s) then s else n - s
  }

  /** A big integer that is updated in place, as Go's `*big.Int`. */
  class BigInt {
    var value: int

    constructor (v: int)
      ensures value == v
    {
      value := v;
    }
  }

  /** Overwrites `s` and hands back the same object. */
  method ToLowS(n: int, s: BigInt) returns (low: BigInt)
    modifies s
    ensures low == s && s.value == LowS(n, old(s.value))
  {
    if !(s.value <= n / 2) {
      s.value := n - s.value;
      return s;
    }
    return s;
  }

  lemma LowSRange(n: int, s: int)
    requires n > 2 && n % 2 == 1
    ensures 0 < s < n ==> 0 < LowS(n, s) <= (n - 1) / 2
    ensures 0 < s < n ==> LowS(n, LowS(n, s)) == LowS(n, s)
    ensures 0 < s < n ==> LowS(n, s) == LowS(n, n - s)
    ensures forall t :: 0 < s < n && 0 < t < n && LowS(n, s) == LowS(n, t) ==> t == s || t == n - s
  {
  }

  lemma PrimeIsOdd(n: int)
    requires Prime(n) && n > 2
    ensures n % 2 == 1
  {
    assert n % 2 != 0;
  }

  /** Negating s negates the nonce scalar. */
  lemma NonceOfNegation(c: Curve, q: int, z: int, r: int, s: int)
    requires Prime(c.order) && 0 < s < c.order
    ensures var k, m := NonceScalar(c, q, z, r, s), NonceScalar(c, q, z, r, c.order - s);
            m == if k == 0 then 0 else c.order - k
  {
    assert c.order > 1;
    NotZero(c.order, s);
    hide Prime, Cong, Inverse;
    var n := c.order;
    var w, v := Inverse(s, n), Inverse(n - s, n);
    var k, m := NonceScalar(c, q, z, r, s), NonceScalar(c, q, z, r, n - s);
    InverseOfNegation(n, s);
    InverseOfComplement(n, s);
    NonceIsMultiple(n, q, z, r, w);
    NonceIsMultiple(n, q, z, r, v);
    CongScale(n, z + r * q, v, -w);
    NegateProduct(z + r * q, w);
    CongMod(n, (z + r * q) * w);
    CongTrans(n, m, (z + r * q) * v, -((z + r * q) * w));
    CongNegate(n, k, (z + r * q) * w);
    CongSym(n, -k, -((z + r * q) * w));
    CongTrans(n, m, -((z + r * q) * w), -k);
    CongNegationResidue(n, m, k);
  }

  lemma NegateProduct(a: int, w: int)
    ensures a * -w == -(a * w)
  {
  }

  lemma NonceIsMultiple(n: int, q: int, z: int, r: int, w: int)
    requires n > 0
    ensures Cong(n, Mod(z * w + r * w * q, n), (z + r * q) * w)
  {
    CongMod(n, z * w + r * w * q);
    RearrangeNonce(q, z, r, w);
  }

  lemma RearrangeNonce(q: int, z: int, r: int, w: int)
    ensures z * w + r * w * q == (z + r * q) * w
  {
    assert r * w * q == r * (w * q) == r * (q * w) == (r * q) * w;
  }

  lemma CongNegate(n: int, a: int, b: int)
    requires n > 0 && Cong(n, a, b)
    ensures Cong(n, -a, -b)
  {
    var p := CongElim(n, a, b);
    CongIntro(n, -a, -b, -p);
  }

  lemma CongNegationResidue(n: int, m: int, k: int)
    requires n > 0 && 0 <= m < n && 0 <= k < n && Cong(n, m, -k)
    ensures m == if k == 0 then 0 else n - k
  {
    if k == 0 {
      CongEq(n, m, 0);
    } else {
      var p := CongElim(n, m, -k);
      CongIntro(n, m, n - k, p - 1);
      CongEq(n, m, n - k);
    }
  }

  /** For every integer s, (r, s) verifies exactly when (r, LowS(s)) does. */
  lemma LowSKeepsVerification(c: Curve, q: int, z: int, r: int, s: int)
    requires c.Valid()
    ensures Verifies(c, q, z, r, s) <==> Verifies(c, q, z, r, LowS(c.order, s))
  {
    if 0 < s < c.order && !IsLowS(c.order, s) {
      hide Prime, NonceScalar;
      assert Prime(c.order);
      NonceOfNegation(c, q, z, r, s);
      assert c.Scalar(NonceScalar(c, q, z, r, s)) || NonceScalar(c, q, z, r, s) == 0;
    }
  }
}
