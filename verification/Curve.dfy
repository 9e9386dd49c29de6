/**
 The elliptic curve group seen from outside. A point other than the identity is represented by its
 scalar `k` with 0 < k < order (the point k·G); 0 stands for the identity. Coordinates and
 addresses stay uninterpreted; `Valid` lists the few facts that are used about them.
 */
module Curves {
  import opened ModularArithmetic
  import opened Wrappers

  datatype Curve = Curve(order: int,
                         x: int -> int,
                         y: int -> int,
                         lift: (int, bool) -> Option<int>,
                         address: int -> string)
  {
    predicate Scalar(k: int) {
      0 < k < order
    }

    /** Opposite points share x and differ in the parity of y; x and that parity fix the point. */
    ghost predicate Valid() {
      && Prime(order) && order > 2
      && (forall k :: Scalar(k) ==> x(order - k) == x(k) && IsOdd(y(order - k)) != IsOdd(y(k)))
      && (forall k :: Scalar(k) ==> x(k) >= 0 && lift(x(k), IsOdd(y(k))) == Some(k))
      && (forall a, odd :: lift(a, odd).Some? ==>
            Scalar(lift(a, odd).value) && x(lift(a, odd).value) == a && IsOdd(y(lift(a, odd).value)) == odd)
    }

    /** `NewECPoint`: the point with these coordinates, if they lie on the curve. */
    function Point(px: int, py: int): Option<int> {
      match lift(px, IsOdd(py))
      case Some(k) => if y(k) == py then Some(k) else None
      case None => None
    }
  }

  predicate IsOdd(n: int) {
    n % 2 == 1
  }

  /** Coordinates determine the point and every point is found from its coordinates. */
  lemma PointIffCoordinates(c: Curve, px: int, py: int, k: int)
    requires c.Valid()
    ensures c.Point(px, py) == Some(k) <==> c.Scalar(k) && c.x(k) == px && c.y(k) == py
  {
  }

  // ---- A curve that meets the assumptions ----

  const SMALL_X: seq<int> := [0, 1, 14, 3, 15, 9, 9, 15, 3, 14, 1]
  const SMALL_Y: seq<int> := [0, 7, 11, 12, 9, 4, 13, 8, 5, 6, 10]

  /**
   y² = x³ + 9x + 5 over the field of 17 elements: eleven points, generated by (1, 7). As on
   secp256k1 the order is smaller than the field, so some x coordinates are not below the order.
   */
  function SmallCurve(): (c: Curve) {
    Curve(11,
          k => if 0 <= k < 11 then SMALL_X[k] else 0,
          k => if 0 <= k < 11 then SMALL_Y[k] else 0,
          (a, odd) => if a == 1 then Some(if odd then 1 else 10)
                      else if a == 14 then Some(if odd then 2 else 9)
                      else if a == 3 then Some(if odd then 8 else 3)
                      else if a == 15 then Some(if odd then 4 else 7)
                      else if a == 9 then Some(if odd then 6 else 5)
                      else None,
          k => Letters(k))
  }

  function Letters(k: int): string {
    if k <= 0 then "" else "*" + Letters(k - 1)
  }

  lemma ElevenIsPrime()
    ensures Prime(11)
  {
    assert 11 % 2 == 1 && 11 % 3 == 2 && 11 % 4 == 3 && 11 % 5 == 1 && 11 % 6 == 5;
    assert 11 % 7 == 4 && 11 % 8 == 3 && 11 % 9 == 2 && 11 % 10 == 1;
  }

  /** The tables are points of the curve. */
  lemma SmallTablesAreOnCurve(k: int)
    requires 0 < k < 11
    ensures (SMALL_Y[k] * SMALL_Y[k]) % 17 == (SMALL_X[k] * SMALL_X[k] * SMALL_X[k] + 9 * SMALL_X[k] + 5) % 17
  {
    if k == 1 {} else if k == 2 {} else if k == 3 {} else if k == 4 {} else if k == 5 {}
    else if k == 6 {} else if k == 7 {} else if k == 8 {} else if k == 9 {} else {}
  }

  lemma SmallPoint(k: int)
    requires 0 < k < 11
    ensures var c := SmallCurve();
            && c.x(11 - k) == c.x(k) && IsOdd(c.y(11 - k)) != IsOdd(c.y(k)) && c.x(k) >= 0
            && c.lift(c.x(k), IsOdd(c.y(k))) == Some(k)
  {
    if k == 1 {} else if k == 2 {} else if k == 3 {} else if k == 4 {} else if k == 5 {}
    else if k == 6 {} else if k == 7 {} else if k == 8 {} else if k == 9 {} else {}
  }

  lemma SmallLift(a: int, odd: bool)
    requires SmallCurve().lift(a, odd).Some?
    ensures var c := SmallCurve();
            var k := c.lift(a, odd).value;
            c.Scalar(k) && c.x(k) == a && IsOdd(c.y(k)) == odd
  {
    if a == 1 {} else if a == 14 {} else if a == 3 {} else if a == 15 {} else {}
  }

  lemma {:induction false} LettersLength(k: int)
    requires k >= 0
    ensures |Letters(k)| == k
  {
    if k > 0 {
      LettersLength(k - 1);
    }
  }

  lemma SmallCurveIsValid()
    ensures SmallCurve().Valid()
  {
    ElevenIsPrime();
    hide Prime;
    var c := SmallCurve();
    forall k | c.Scalar(k)
      ensures c.x(11 - k) == c.x(k) && IsOdd(c.y(11 - k)) != IsOdd(c.y(k))
      ensures c.x(k) >= 0 && c.lift(c.x(k), IsOdd(c.y(k))) == Some(k)
    {
      SmallPoint(k);
    }
    forall a, odd | c.lift(a, odd).Some?
      ensures c.Scalar(c.lift(a, odd).value) && c.x(c.lift(a, odd).value) == a
          && IsOdd(c.y(c.lift(a, odd).value)) == odd
    {
      SmallLift(a, odd);
    }
  }
}
