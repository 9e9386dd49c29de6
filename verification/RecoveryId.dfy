/**
 Why the recovery id is right. The signer tries ids 0 and 1 only, so the key can be recovered
 exactly when the x coordinate of the nonce point is below the group order; and an error met while
 trying id 0 is kept, so one further case of valid signatures is refused.
 */
module RecoveryIds {
  import opened Bytes
  import opened Curves
  import opened Ecdsa
  import opened ModularArithmetic
  import opened Signatures
  import opened Wrappers

  /** Division modulo a prime: the quotient is the only residue whose product is the dividend. */
  lemma DivideIff(n: int, a: int, b: int, v: int)
    requires Prime(n) && 0 < a < n && 0 <= v < n
    ensures v == Mod(Inverse(a, n) * b, n) <==> Cong(n, a * v, b)
  {
    hide Prime, Cong, Inverse;
    NotZero(n, a);
    InverseWorks(a, n);
    var i := Inverse(a, n);
    var d := Mod(i * b, n);
    // a * d is congruent to b
    CongMod(n, i * b);
    CongScale(n, a, d, i * b);
    CongScale(n, b, a * i, 1);
    assert a * (i * b) == (a * i) * b;
    CongTrans(n, a * d, a * (i * b), b);
    if Cong(n, a * v, b) {
      CongSym(n, a * d, b);
      CongTrans(n, a * v, b, a * d);
      Cancel(n, a, v, d);
      CongEq(n, v, d);
    }
  }

  /** The nonce scalar is the only residue k with s·k ≡ z + r·q. */
  lemma NonceEquation(c: Curve, q: int, z: int, r: int, s: int, k: int)
    requires Prime(c.order) && 0 < s < c.order && 0 <= k < c.order
    ensures k == NonceScalar(c, q, z, r, s) <==> Cong(c.order, s * k, z + r * q)
  {
    hide Prime, Cong, Inverse;
    var n, w := c.order, Inverse(s, c.order);
    RearrangeNonce(q, z, r, w);
    assert (z + r * q) * w == w * (z + r * q);
    DivideIff(n, s, z + r * q, k);
  }

  /** The recovered key is the only residue q with s·k ≡ z + r·q. */
  lemma KeyEquation(n: int, z: int, r: int, s: int, k: int, q: int)
    requires Prime(n) && 0 < r < n && 0 <= q < n
    ensures q == Mod(Inverse(r, n) * (s * k - z), n) <==> Cong(n, s * k, z + r * q)
  {
    DivideIff(n, r, s * k - z, q);
    CongShift(n, r * q, s * k, z);
  }

  lemma CongShift(n: int, a: int, b: int, z: int)
    requires n > 0
    ensures Cong(n, a, b - z) <==> Cong(n, b, z + a)
  {
    if Cong(n, a, b - z) {
      var p := CongElim(n, a, b - z);
      CongIntro(n, b, z + a, -p);
    }
    if Cong(n, b, z + a) {
      var p := CongElim(n, b, z + a);
      CongIntro(n, a, b - z, -p);
    }
  }

  /** The x coordinate an id stands for: ids 2 and 3 are for a nonce point whose x is not below the order. */
  function LiftedX(c: Curve, r: int, id: nat): int {
    if id >= 2 then r + c.order else r
  }

  /** What recovery returns, in terms of the point lifted from r. */
  lemma RecoverKeyAt(c: Curve, z: int, r: int, s: int, id: nat, k: int, q: int)
    requires Prime(c.order) && 0 < r < c.order && 0 < s < c.order
    requires c.lift(LiftedX(c, r, id), id % 2 == 1) == Some(k) && 0 < q < c.order
    ensures RecoverKey(c, z, r, s, id) == Some(q) <==> Cong(c.order, s * k, z + r * q)
    ensures RecoverKey(c, z, r, s, id).None? <==> Cong(c.order, s * k, z)
  {
    hide Prime, Cong, Inverse;
    KeyEquation(c.order, z, r, s, k, q);
    KeyEquation(c.order, z, r, s, k, 0);
    assert z + r * 0 == z;
  }

  lemma LiftIff(c: Curve, a: int, odd: bool, k: int)
    requires c.Valid()
    ensures c.lift(a, odd) == Some(k) <==> c.Scalar(k) && c.x(k) == a && IsOdd(c.y(k)) == odd
  {
  }

  lemma VerifiedNonce(c: Curve, q: int, z: int, r: int, s: int)
    requires c.Valid() && Verifies(c, q, z, r, s)
    ensures var k := NonceScalar(c, q, z, r, s);
            && Prime(c.order) && 0 < r < c.order && 0 < s < c.order
            && c.Scalar(k) && Cong(c.order, s * k, z + r * q)
            && (c.x(k) < c.order <==> c.x(k) == r)
  {
    hide Prime, Cong, Inverse, NonceScalar;
    NonceEquation(c, q, z, r, s, NonceScalar(c, q, z, r, s));
    if c.x(NonceScalar(c, q, z, r, s)) < c.order {
      SmallMod(c.x(NonceScalar(c, q, z, r, s)), c.order);
    }
  }

  /**
   Recovery gives the signing key exactly when the id stands for the nonce point's x and for the parity of
   its y; with one of the two ids that are tried, exactly when x is below the order and the parity fits.
   */
  lemma RecoversSignerIff(c: Curve, q: int, z: int, r: int, s: int, id: nat)
    requires c.Valid() && c.Scalar(q) && Verifies(c, q, z, r, s)
    ensures var k := NonceScalar(c, q, z, r, s);
            && (RecoverKey(c, z, r, s, id) == Some(q)
                <==> c.x(k) == (if id >= 2 then r + c.order else r) && (id % 2 == 1) == IsOdd(c.y(k)))
            && (id < 2 ==>
                  (RecoverKey(c, z, r, s, id) == Some(q) <==> c.x(k) < c.order && (id == 1) == IsOdd(c.y(k))))
  {
    var n, k, a := c.order, NonceScalar(c, q, z, r, s), LiftedX(c, r, id);
    VerifiedNonce(c, q, z, r, s);
    match c.lift(a, id % 2 == 1)
    case None =>
      LiftIff(c, a, id % 2 == 1, k);
    case Some(j) =>
      LiftIff(c, a, id % 2 == 1, j);
      LiftIff(c, a, id % 2 == 1, k);
      RecoverKeyAt(c, z, r, s, id, j, q);
      NonceEquation(c, q, z, r, s, j);
      hide RecoverKey, NonceScalar, Cong, Prime, Verifies;
  }

  /** The other id of the same x coordinate fails exactly when its key would be the identity. */
  lemma OtherIdFailsIff(c: Curve, q: int, z: int, r: int, s: int)
    requires c.Valid() && c.Scalar(q) && Verifies(c, q, z, r, s)
    requires c.x(NonceScalar(c, q, z, r, s)) < c.order
    ensures var other := if IsOdd(c.y(NonceScalar(c, q, z, r, s))) then 0 else 1;
            RecoverKey(c, z, r, s, other).None? <==> Cong(c.order, 2 * z + r * q, 0)
  {
    hide RecoverKey, NonceScalar, Cong, Prime, Verifies;
    var n, k := c.order, NonceScalar(c, q, z, r, s);
    VerifiedNonce(c, q, z, r, s);
    var other := if IsOdd(c.y(k)) then 0 else 1;
    LiftIff(c, r, other == 1, n - k);
    RecoverKeyAt(c, z, r, s, other, n - k, q);
    OppositeNonce(n, z, r * q, s, k);
  }

  lemma OppositeNonce(n: int, z: int, rq: int, s: int, k: int)
    requires n > 0 && Cong(n, s * k, z + rq)
    ensures Cong(n, s * (n - k), z) <==> Cong(n, 2 * z + rq, 0)
  {
    var p := CongElim(n, s * k, z + rq);
    assert s * (n - k) == s * n - s * k;
    if Cong(n, s * (n - k), z) {
      var m := CongElim(n, s * (n - k), z);
      assert 2 * z + rq == (s - p - m) * n by {
        assert (s - p - m) * n == s * n - p * n - m * n;
      }
      CongIntro(n, 2 * z + rq, 0, s - p - m);
    }
    if Cong(n, 2 * z + rq, 0) {
      var m := CongElim(n, 2 * z + rq, 0);
      assert s * (n - k) - z == (s - p - m) * n by {
        assert (s - p - m) * n == s * n - p * n - m * n;
      }
      CongIntro(n, s * (n - k), z, s - p - m);
    }
  }

  /** No other key shares the wallet's address. */
  ghost predicate AddressUnique(c: Curve, q: int) {
    forall k :: c.Scalar(k) && c.address(k) == c.address(q) ==> k == q
  }

  /**
   The trailing byte of a verifying signature. With the nonce's x coordinate below the order it is
   the least id whose recovered key has the wallet's address, and one exists; the key recovered with
   it is the wallet's own key, up to address collisions. Otherwise neither id recovers the key.
   */
  lemma RecoveryIdIsRight(c: Curve, q: int, z: int, r: int, s: int)
    requires c.Valid() && c.Scalar(q) && Verifies(c, q, z, r, s)
    ensures var below := c.x(NonceScalar(c, q, z, r, s)) < c.order;
            var v := RecoveryId(c, q, z, r, s);
            && (below ==> AddressMatches(c, q, z, r, s, v) && v < 2)
            && (below ==> forall id: nat :: id < v ==> !AddressMatches(c, q, z, r, s, id))
            && (AddressUnique(c, q) ==> (RecoverKey(c, z, r, s, v) == Some(q) <==> below))
            && (!below ==> forall id: nat :: id < 2 ==> RecoverKey(c, z, r, s, id) != Some(q))
  {
    RecoversSignerIff(c, q, z, r, s, 0);
    RecoversSignerIff(c, q, z, r, s, 1);
    RecoveredKeyIsScalar(c, z, r, s, 0);
    RecoveredKeyIsScalar(c, z, r, s, 1);
    hide RecoverKey, NonceScalar, Verifies;
  }

  lemma RecoveredKeyIsScalar(c: Curve, z: int, r: int, s: int, id: nat)
    requires c.order > 1
    ensures RecoverKey(c, z, r, s, id).Some? ==> c.Scalar(RecoverKey(c, z, r, s, id).value)
  {
  }

  /**
   A verifying signature whose nonce has x below the order is refused exactly when the nonce's y is
   odd, 2z + r·q is a multiple of the order (id 0 then meets the identity) — although id 1 is right.
   */
  lemma RefusedExactlyWhen(c: Curve, q: int, z: int, r: int, s: int)
    requires c.Valid() && c.Scalar(q) && Verifies(c, q, z, r, s)
    requires c.x(NonceScalar(c, q, z, r, s)) < c.order
    ensures AttemptFails(c, q, z, r, s) <==>
            IsOdd(c.y(NonceScalar(c, q, z, r, s))) && Cong(c.order, 2 * z + r * q, 0)
  {
    RecoversSignerIff(c, q, z, r, s, 0);
    RecoversSignerIff(c, q, z, r, s, 1);
    OtherIdFailsIff(c, q, z, r, s);
    hide RecoverKey, NonceScalar, Verifies;
  }

  /** No point has x equal to r, or one that does recovers the identity. */
  ghost predicate NoKeyAt(c: Curve, z: int, r: int, s: int)
    requires c.order > 1
  {
    || (forall k :: c.Scalar(k) ==> c.x(k) != r)
    || (exists k :: c.Scalar(k) && c.x(k) == r && Cong(c.order, s * k, z))
  }

  /**
   A verifying signature whose nonce has x at or above the order is refused exactly when no point has
   x equal to r, or one of the two that do would recover the identity; otherwise it leaves with an
   id that recovers another key.
   */
  lemma RefusedAboveOrder(c: Curve, q: int, z: int, r: int, s: int)
    requires c.Valid() && c.Scalar(q) && Verifies(c, q, z, r, s) && AddressUnique(c, q)
    requires c.x(NonceScalar(c, q, z, r, s)) >= c.order
    ensures AttemptFails(c, q, z, r, s) <==> NoKeyAt(c, z, r, s)
  {
    VerifiedNonce(c, q, z, r, s);
    RecoversSignerIff(c, q, z, r, s, 0);
    RecoversSignerIff(c, q, z, r, s, 1);
    RecoveredKeyIsScalar(c, z, r, s, 0);
    if forall k :: c.Scalar(k) ==> c.x(k) != r {
      assert c.lift(r, false).None?;
    } else {
      var j :| c.Scalar(j) && c.x(j) == r;
      BothLift(c, r, j);
      var even, odd := c.lift(r, false).value, c.lift(r, true).value;
      RecoverKeyAt(c, z, r, s, 0, even, q);
      RecoverKeyAt(c, z, r, s, 1, odd, q);
      LiftIff(c, r, false, even);
      LiftIff(c, r, true, odd);
      hide RecoverKey, NonceScalar, Verifies, Cong;
      forall k | c.Scalar(k) && c.x(k) == r
        ensures k == even || k == odd
      {
        LiftIff(c, r, IsOdd(c.y(k)), k);
      }
    }
  }

  lemma BothLift(c: Curve, a: int, j: int)
    requires c.Valid() && c.Scalar(j) && c.x(j) == a
    ensures c.lift(a, false).Some? && c.lift(a, true).Some?
  {
    LiftIff(c, a, IsOdd(c.y(j)), j);
    LiftIff(c, a, !IsOdd(c.y(j)), c.order - j);
  }

  // ---- Each outcome on a concrete curve ----

  /** (4, 1) verifies for digest 3 with nonce x = 15, not below the order 11: no point has x = 4, so it is refused. */
  lemma NonceAboveOrderIsRefused()
    ensures var c := SmallCurve();
            && c.Valid() && c.Scalar(3) && Verifies(c, 3, 3, 4, 1)
            && c.x(NonceScalar(c, 3, 3, 4, 1)) >= c.order
            && AttemptFails(c, 3, 3, 4, 1)
  {
    SmallCurveIsValid();
    SmallInverses();
    hide Inverse, Curve.Valid;
    assert NonceScalar(SmallCurve(), 3, 3, 4, 1) == 15 % 11 == 4;
  }

  /** (3, 1) verifies for digest 10 with nonce x = 14; it leaves with id 0, which recovers key 5 instead of 1. */
  lemma NonceAboveOrderLeavesUnusable()
    ensures var c := SmallCurve();
            && c.Valid() && c.Scalar(1) && Verifies(c, 1, 10, 3, 1)
            && c.x(NonceScalar(c, 1, 10, 3, 1)) >= c.order
            && SizeAccepted(Some(3)) && SizeAccepted(Some(1)) && !AttemptFails(c, 1, 10, 3, 1)
            && RecoverKey(c, 10, 3, 1, RecoveryId(c, 1, 10, 3, 1)) == Some(5) && c.address(5) != c.address(1)
  {
    var c := SmallCurve();
    SmallCurveIsValid();
    SmallInverses();
    LargeSizes();
    hide Inverse, Curve.Valid, Pow256, Letters;
    assert NonceScalar(c, 1, 10, 3, 1) == 13 % 11 == 2;
    assert RecoverKey(c, 10, 3, 1, 0) == Some(5) by {
      assert 4 * (1 * 3 - 10) == 5 + 11 * -3;
    }
    assert RecoverKey(c, 10, 3, 1, 1) == Some(3) by {
      assert 4 * (1 * 8 - 10) == 3 + 11 * -1;
    }
    assert c.address(5) != c.address(1) && c.address(3) != c.address(1) by {
      DistinctLetters();
    }
  }

  lemma DistinctLetters()
    ensures Letters(5) != Letters(1) && Letters(3) != Letters(1)
  {
    LettersLength(1);
    LettersLength(3);
    LettersLength(5);
  }

  lemma LargeSizes()
    ensures Pow256(32) > 3
  {
    assert Pow256(32) >= Pow256(1);
  }

  /** (3, 1) verifies for digest 3 and id 1 recovers key 9, yet the error of id 0 is returned. */
  lemma ErrorOfFirstIdIsKept()
    ensures var c := SmallCurve();
            && c.Valid() && c.Scalar(9) && Verifies(c, 9, 3, 3, 1)
            && RecoverKey(c, 3, 3, 1, 1) == Some(9)
            && AttemptFails(c, 9, 3, 3, 1)
  {
    var c := SmallCurve();
    SmallCurveIsValid();
    OddNonceWitness();
    hide SmallCurve, NonceScalar, Verifies, RecoverKey, AttemptFails, Inverse, ExtendedGcd;
    RecoversSignerIff(c, 9, 3, 3, 1, 1);
    RefusedExactlyWhen(c, 9, 3, 3, 1);
  }

  lemma OddNonceWitness()
    ensures var c := SmallCurve();
            && c.order == 11 && NonceScalar(c, 9, 3, 3, 1) == 8 && Verifies(c, 9, 3, 3, 1)
            && c.x(8) == 3 && IsOdd(c.y(8))
  {
    SmallInverses();
    hide Inverse;
    assert NonceScalar(SmallCurve(), 9, 3, 3, 1) == 30 % 11 == 8;
  }

  lemma SmallInverses()
    ensures Inverse(1, 11) == 1 && Inverse(3, 11) == 4
  {
    assert ExtendedGcd(1, 0) == (1, 1, 0);
    assert ExtendedGcd(11, 1) == (1, 0, 1);
    assert ExtendedGcd(1, 11) == (1, 1, 0);
    assert ExtendedGcd(2, 1) == (1, 0, 1);
    assert ExtendedGcd(3, 2) == (1, 1, -1);
    assert ExtendedGcd(11, 3) == (1, -1, 4);
    assert ExtendedGcd(3, 11) == (1, 4, -1);
  }

  /** Numbers that are no residues are refused, whatever the id. */
  lemma OutOfRangeIsRefused(c: Curve, q: int, z: int, r: int, s: int, id: nat)
    requires c.order > 1 && !(0 < r < c.order && 0 < s < c.order)
    ensures RecoverKey(c, z, r, s, id).None? && AttemptFails(c, q, z, r, s)
  {
  }

  /** The header byte of a compact signature names the id; 31 to 34 stand for compressed keys and the same ids. */
  lemma HeaderNamesId(c: Curve, sig: seq<byte>, z: int)
    requires c.order > 1 && |sig| == 65
    ensures forall id: nat :: id < 4 && (sig[0] as nat == 27 + id || sig[0] as nat == 31 + id) ==>
              RecoverCompact(c, sig, z) == RecoverKey(c, z, Decode(sig[1..33]), Decode(sig[33..65]), id)
    ensures sig[0] < 27 || sig[0] > 34 ==> RecoverCompact(c, sig, z).None?
  {
    hide Decode, RecoverKey;
  }
}
