/** Interpolation of a degree-1 polynomial from two of its values, modulo a prime. */
module Interpolation {
  import opened ModularArithmetic

  function Line(a0: int, a1: int, x: int): int {
    a0 + a1 * x
  }

  /** The share a party with coordinate `x` holds. */
  function Share(n: int, a0: int, a1: int, x: int): (s: int)
    requires n > 0
    ensures 0 <= s < n
  {
    Mod(Line(a0, a1, x), n)
  }

  /** Weight of the value at `xi` when evaluating at `x`, for the two coordinates xi and xj. */
  function Lagrange(n: int, xi: int, xj: int, x: int): int
    requires n > 1
  {
    Mod((x - xj) * Inverse(xi - xj, n), n)
  }

  function Interpolate(n: int, x1: int, s1: int, x2: int, s2: int, x: int): (s: int)
    requires n > 1
    ensures 0 <= s < n
  {
    Mod(Lagrange(n, x1, x2, x) * s1 + Lagrange(n, x2, x1, x) * s2, n)
  }

  lemma LineIdentity(a0: int, a1: int, x1: int, x2: int, x: int)
    ensures (x - x2) * Line(a0, a1, x1) - (x - x1) * Line(a0, a1, x2) == (x1 - x2) * Line(a0, a1, x)
  {
    Expand(x, x2, a0, a1, x1);
    Expand(x, x1, a0, a1, x2);
    assert (x1 - x2) * Line(a0, a1, x) == x1 * a0 - x2 * a0 + x1 * (a1 * x) - x2 * (a1 * x);
    assert x * (a1 * x1) == x1 * (a1 * x) && x * (a1 * x2) == x2 * (a1 * x);
    assert x2 * (a1 * x1) == x1 * (a1 * x2);
  }

  lemma Expand(x: int, y: int, a0: int, a1: int, t: int)
    ensures (x - y) * Line(a0, a1, t) == x * a0 - y * a0 + x * (a1 * t) - y * (a1 * t)
  {
    assert (x - y) * (a0 + a1 * t) == (x - y) * a0 + (x - y) * (a1 * t);
  }

  /** The two weights, as multiples of one inverse. */
  lemma Weights(n: int, x1: int, x2: int, x: int)
    requires Prime(n) && !Cong(n, x1 - x2, 0)
    ensures var d := Inverse(x1 - x2, n);
            && Cong(n, Lagrange(n, x1, x2, x), (x - x2) * d)
            && Cong(n, Lagrange(n, x2, x1, x), -(x - x1) * d)
            && Cong(n, (x1 - x2) * d, 1)
  {
    assert n > 1;
    hide Prime, Cong, Inverse;
    var u := x1 - x2;
    var d, e := Inverse(u, n), Inverse(-u, n);
    InverseOfNegation(n, u);
    assert x2 - x1 == -u;
    CongMod(n, (x - x2) * d);
    CongSym(n, (x - x2) * d, Lagrange(n, x1, x2, x));
    CongMod(n, (x - x1) * e);
    CongScale(n, x - x1, e, -d);
    MoveSign(x - x1, d);
    CongTrans(n, Lagrange(n, x2, x1, x), (x - x1) * e, -(x - x1) * d);
  }

  lemma MoveSign(a: int, d: int)
    ensures a * -d == -a * d
  {
  }

  /** Interpolation is exact: from two shares at different coordinates it gives every value of the line. */
  lemma InterpolationIsExact(n: int, a0: int, a1: int, x1: int, x2: int, x: int)
    requires Prime(n) && !Cong(n, x1, x2)
    ensures Interpolate(n, x1, Share(n, a0, a1, x1), x2, Share(n, a0, a1, x2), x) == Share(n, a0, a1, x)
  {
    assert !Cong(n, x1 - x2, 0);
    hide Prime, Cong, Inverse, Lagrange;
    var d := Inverse(x1 - x2, n);
    var l1, l2 := Lagrange(n, x1, x2, x), Lagrange(n, x2, x1, x);
    var f1, f2, f := Line(a0, a1, x1), Line(a0, a1, x2), Line(a0, a1, x);
    var s1, s2 := Share(n, a0, a1, x1), Share(n, a0, a1, x2);
    Weights(n, x1, x2, x);
    CongMod(n, f1);
    CongMod(n, f2);
    CongMul(n, l1, (x - x2) * d, s1, f1);
    CongMul(n, l2, -(x - x1) * d, s2, f2);
    CongAdd(n, l1 * s1, (x - x2) * d * f1, l2 * s2, -(x - x1) * d * f2);
    LineIdentity(a0, a1, x1, x2, x);
    Regroup(x - x2, -(x - x1), d, f1, f2, x1 - x2, f);
    CongScale(n, f, (x1 - x2) * d, 1);
    CongTrans(n, l1 * s1 + l2 * s2, (x - x2) * d * f1 + -(x - x1) * d * f2, f);
    CongIffModEq(n, l1 * s1 + l2 * s2, f);
  }

  lemma Regroup(p: int, q: int, d: int, f1: int, f2: int, u: int, f: int)
    requires p * f1 + q * f2 == u * f
    ensures p * d * f1 + q * d * f2 == f * (u * d)
  {
    assert p * d * f1 == d * (p * f1) && q * d * f2 == d * (q * f2);
    assert d * (p * f1) + d * (q * f2) == d * (u * f);
    assert d * (u * f) == f * (u * d);
  }

  /** One share tells nothing: whatever its value, every secret is possible. */
  lemma OneShareTellsNothing(n: int, x: int, s: int, secret: int) returns (a1: int)
    requires Prime(n) && !Cong(n, x, 0) && 0 <= s < n
    ensures Share(n, secret, a1, x) == s
  {
    assert n > 1;
    hide Prime, Cong, Inverse, Mod;
    var i := Inverse(x, n);
    a1 := (s - secret) * i;
    InverseWorks(x, n);
    TurnFactors(s - secret, i, x);
    CongScale(n, s - secret, x * i, 1);
    CongRefl(n, secret);
    CongAdd(n, secret, secret, a1 * x, s - secret);
    CongIffModEq(n, Line(secret, a1, x), s);
    SmallIsItsMod(n, s);
  }

  lemma TurnFactors(a: int, b: int, c: int)
    ensures a * b * c == a * (c * b)
  {
  }

  lemma SmallIsItsMod(n: int, s: int)
    requires 0 <= s < n
    ensures Mod(s, n) == s
  {
  }
}
