/**
 Arithmetic modulo a prime group order, as needed by key recovery and signatures: congruence,
 inverses from the extended Euclidean algorithm, cancellation.
 */
module ModularArithmetic {

  /** The remainder of Go's `big.Int.Mod` for a positive modulus (never negative, as in Dafny). */
  function Mod(a: int, n: int): (r: int)
    requires n > 0
    ensures 0 <= r < n
  {
    a % n
  }

  predicate Cong(n: int, a: int, b: int)
    requires n > 0
  {
    (a - b) % n == 0
  }

  lemma CongIntro(n: int, a: int, b: int, q: int)
    requires n > 0 && a - b == q * n
    ensures Cong(n, a, b)
  {
    MultipleMod(q, n);
  }

  lemma MultipleMod(q: int, n: int)
    requires n > 0
    ensures (q * n) % n == 0
  {
    var d, r := (q * n) / n, (q * n) % n;
    assert q * n == d * n + r;
    SmallMultiple(q - d, n, r);
  }

  /** Only the zeroth multiple of `n` lies strictly between `-n` and `n`. */
  lemma SmallMultiple(q: int, n: int, r: int)
    requires n > 0 && -n < r < n
    ensures q * n == r ==> q == 0 && r == 0
  {
    if q >= 1 {
      assert (q - 1) * n >= 0;
      assert q * n == (q - 1) * n + n;
    } else if q <= -1 {
      assert (-q - 1) * n >= 0;
      assert q * n == -(-q - 1) * n - n;
    }
  }

  lemma CongElim(n: int, a: int, b: int) returns (q: int)
    requires n > 0 && Cong(n, a, b)
    ensures a - b == q * n
  {
    q := (a - b) / n;
  }

  lemma CongMod(n: int, a: int)
    requires n > 0
    ensures Cong(n, a, Mod(a, n)) && Cong(n, Mod(a, n), a)
  {
    CongIntro(n, a, a % n, a / n);
    CongIntro(n, a % n, a, -(a / n));
  }

  lemma CongSym(n: int, a: int, b: int)
    requires n > 0 && Cong(n, a, b)
    ensures Cong(n, b, a)
  {
    var q := CongElim(n, a, b);
    CongIntro(n, b, a, -q);
  }

  lemma CongTrans(n: int, a: int, b: int, c: int)
    requires n > 0 && Cong(n, a, b) && Cong(n, b, c)
    ensures Cong(n, a, c)
  {
    var p := CongElim(n, a, b);
    var q := CongElim(n, b, c);
    CongIntro(n, a, c, p + q);
  }

  lemma CongAdd(n: int, a: int, b: int, c: int, d: int)
    requires n > 0 && Cong(n, a, b) && Cong(n, c, d)
    ensures Cong(n, a + c, b + d)
  {
    var p := CongElim(n, a, b);
    var q := CongElim(n, c, d);
    CongIntro(n, a + c, b + d, p + q);
  }

  lemma CongMul(n: int, a: int, b: int, c: int, d: int)
    requires n > 0 && Cong(n, a, b) && Cong(n, c, d)
    ensures Cong(n, a * c, b * d)
  {
    var p := CongElim(n, a, b);
    var q := CongElim(n, c, d);
    var m := p * c + b * q;
    assert a == b + p * n && c == d + q * n;
    assert a * c == b * d + m * n;
    CongIntro(n, a * c, b * d, m);
  }

  lemma CongScale(n: int, k: int, a: int, b: int)
    requires n > 0 && Cong(n, a, b)
    ensures Cong(n, k * a, k * b) && Cong(n, a * k, b * k)
  {
    CongRefl(n, k);
    CongMul(n, k, k, a, b);
    CongMul(n, a, b, k, k);
  }

  lemma CongRefl(n: int, a: int)
    requires n > 0
    ensures Cong(n, a, a)
  {
  }

  /** Congruent residues are equal. */
  lemma CongEq(n: int, a: int, b: int)
    requires n > 0 && Cong(n, a, b) && 0 <= a < n && 0 <= b < n
    ensures a == b
  {
    var q := CongElim(n, a, b);
    SmallMultiple(q, n, a - b);
  }

  lemma CongIffModEq(n: int, a: int, b: int)
    requires n > 0
    ensures Cong(n, a, b) <==> Mod(a, n) == Mod(b, n)
  {
    CongMod(n, a);
    CongMod(n, b);
    if Cong(n, a, b) {
      CongTrans(n, Mod(a, n), a, b);
      CongTrans(n, Mod(a, n), b, Mod(b, n));
      CongEq(n, Mod(a, n), Mod(b, n));
    } else if Mod(a, n) == Mod(b, n) {
      CongTrans(n, a, Mod(a, n), b);
    }
  }

  // ---- Primes and inverses ----

  ghost predicate Prime(n: int) {
    n > 1 && forall d {:trigger n % d} :: 1 < d < n ==> n % d != 0
  }

  /** The extended Euclidean algorithm: the greatest common divisor and its two coefficients. */
  function ExtendedGcd(a: nat, b: nat): (t: (nat, int, int))
    ensures t.0 == t.1 * a + t.2 * b
    ensures a > 0 || b > 0 ==> t.0 > 0
    ensures t.0 > 0 ==> a % t.0 == 0 && b % t.0 == 0
    decreases b
  {
    if b == 0 then (a, 1, 0)
    else
      var (g, x, y) := ExtendedGcd(b, a % b);
      GcdStep(a, b, g, x, y);
      (g, y, x - (a / b) * y)
  }

  lemma GcdStep(a: nat, b: nat, g: nat, x: int, y: int)
    requires b > 0 && g > 0 && g == x * b + y * (a % b) && b % g == 0 && (a % b) % g == 0
    ensures g == y * a + (x - (a / b) * y) * b
    ensures a % g == 0
  {
    var q := a / b;
    assert a == q * b + a % b;
    assert y * a == y * (q * b) + y * (a % b);
    assert (x - q * y) * b == x * b - (q * y) * b;
    assert y * (q * b) == (q * y) * b;
    var u, v := b / g, (a % b) / g;
    assert b == u * g && a % b == v * g;
    assert q * (u * g) == (q * u) * g;
    assert a == (q * u + v) * g;
    MultipleMod(q * u + v, g);
  }

  /** The inverse of a non-zero residue modulo a prime (Go's `ModInverse`). */
  function Inverse(a: int, n: int): (r: int)
    requires n > 1
    ensures 0 <= r < n
  {
    Mod(ExtendedGcd(Mod(a, n), n).1, n)
  }

  lemma InverseWorks(a: int, n: int)
    requires Prime(n) && !Cong(n, a, 0)
    ensures Cong(n, a * Inverse(a, n), 1)
    ensures 0 < Inverse(a, n) < n
  {
    var m := Mod(a, n);
    var (g, x, y) := ExtendedGcd(m, n);
    CongMod(n, a);
    assert m != 0;
    if g > m {
      SmallMod(m, g);
    }
    assert g <= m < n;
    assert n % g == 0;
    assert g == 1;
    assert x * m - 1 == (-y) * n;
    CongIntro(n, x * m, 1, -y);
    CongMod(n, x);
    CongMul(n, a, m, Inverse(a, n), x);
    assert m * x == x * m;
    CongTrans(n, a * Inverse(a, n), m * x, 1);
    assert Cong(n, a * 0, 1) ==> false by {
      SmallMultiple((0 - 1) / n, n, -1);
    }
  }

  lemma SmallMod(m: int, g: int)
    requires 0 <= m < g
    ensures m % g == m
  {
  }

  /** A factor that is not divisible by the prime can be cancelled. */
  lemma Cancel(n: int, k: int, a: int, b: int)
    requires Prime(n) && !Cong(n, k, 0) && Cong(n, k * a, k * b)
    ensures Cong(n, a, b)
  {
    var i := Inverse(k, n);
    InverseWorks(k, n);
    CongScale(n, i, k * a, k * b);
    InverseAbsorbs(n, k, i, a);
    InverseAbsorbs(n, k, i, b);
    CongSym(n, i * (k * a), a);
    CongTrans(n, a, i * (k * a), i * (k * b));
    CongTrans(n, a, i * (k * b), b);
  }

  lemma InverseAbsorbs(n: int, k: int, i: int, a: int)
    requires n > 0 && Cong(n, k * i, 1)
    ensures Cong(n, i * (k * a), a)
  {
    CongScale(n, a, k * i, 1);
    assert i * (k * a) == a * (k * i);
  }

  /** A product of two residues that are not zero is not zero. */
  lemma NoZeroDivisors(n: int, a: int, b: int)
    requires Prime(n) && !Cong(n, a, 0) && !Cong(n, b, 0)
    ensures !Cong(n, a * b, 0)
  {
    if Cong(n, a * b, 0) {
      assert a * 0 == 0;
      Cancel(n, a, b, 0);
    }
  }

  lemma NotZero(n: int, a: int)
    requires 0 < a < n
    ensures !Cong(n, a, 0)
  {
  }

  /** Inverses are unique. */
  lemma InverseUnique(n: int, a: int, i: int, j: int)
    requires Prime(n) && !Cong(n, a, 0) && Cong(n, a * i, 1) && Cong(n, a * j, 1)
    ensures Cong(n, i, j)
  {
    CongSym(n, a * j, 1);
    CongTrans(n, a * i, 1, a * j);
    Cancel(n, a, i, j);
  }

  /** Opposite residues have opposite inverses. */
  lemma InverseOfNegation(n: int, u: int)
    requires Prime(n) && !Cong(n, u, 0)
    ensures Cong(n, Inverse(-u, n), -Inverse(u, n)) && Cong(n, u * Inverse(u, n), 1)
  {
    assert n > 1;
    hide Prime, Cong, Inverse;
    NegationNotZero(n, u);
    InverseWorks(u, n);
    InverseWorks(-u, n);
    var i := Inverse(u, n);
    assert -u * -i == u * i;
    InverseUnique(n, -u, Inverse(-u, n), -i);
  }

  lemma NegationNotZero(n: int, u: int)
    requires n > 0 && !Cong(n, u, 0)
    ensures !Cong(n, -u, 0)
  {
    if Cong(n, -u, 0) {
      var q := CongElim(n, -u, 0);
      CongIntro(n, u, 0, -q);
    }
  }

  lemma InverseOfComplement(n: int, a: int)
    requires n > 1
    ensures Inverse(n - a, n) == Inverse(-a, n)
  {
    CongIntro(n, n - a, -a, 1);
    CongIffModEq(n, n - a, -a);
  }
}
