/** Fermat's little theorem, and Pocklington's criterion to show that a number is prime. */
module Primes {
  import opened Arith

  ghost predicate Prime(p: int) {
    p >= 2 && forall d :: 2 <= d < p ==> !Divides(d, p)
  }

  // ---------------------------------------------------------------- Bezout and Euclid

  /** A common divisor that is a combination of both numbers. */
  lemma {:induction false} Bezout(a: int, b: int) returns (g: int, x: int, y: int)
    requires a > 0 && b >= 0
    ensures g > 0 && Divides(g, a) && Divides(g, b) && a * x + b * y == g
    decreases b
  {
    if b == 0 {
      DividesFrom(a, a, 1); DividesFrom(a, 0, 0);
      return a, 1, 0;
    }
    var q, r := a / b, a % b;
    assert a == b * q + r;
    var x', y';
    g, x', y' := Bezout(b, r);
    DividesMul(g, b, q);
    DividesSum(g, b * q, r);
    BezoutStep(a, b, q, r, x', y');
    return g, y', x' - q * y';
  }

  lemma BezoutStep(a: int, b: int, q: int, r: int, x: int, y: int)
    requires a == b * q + r
    ensures a * y + b * (x - q * y) == b * x + r * y
  {
    MulDistrib(b, x, q * y);
    MulAssoc(b, q, y);
    MulDistrib(y, b * q, r);
  }

  lemma DividesMul(d: int, x: int, y: int)
    requires d > 0 && Divides(d, x)
    ensures Divides(d, x * y) && Divides(d, y * x)
  {
    var k := DividesTo(d, x);
    MulAssoc(d, k, y);
    DividesFrom(d, x * y, k * y);
  }

  lemma DividesSum(d: int, x: int, y: int)
    requires d > 0 && Divides(d, x) && Divides(d, y)
    ensures Divides(d, x + y) && Divides(d, x - y)
  {
    DividesSub(d, x + y, y);
    DividesSub(d, x, y);
  }

  lemma DividesLe(d: int, x: int)
    requires d > 0 && x > 0 && Divides(d, x)
    ensures d <= x
  {
    var k := DividesTo(d, x);
    if k <= 0 { MulLe(d, k, 0); }
    MulLe(d, 1, k);
  }

  /** The inverse of a number that the prime does not divide. */
  lemma Inverse(p: int, a: int) returns (x: int)
    requires Prime(p) && a >= 0 && !Divides(p, a)
    ensures Cong(a * x, 1, p)
  {
    var g, y, z := Bezout(p, a);
    DividesLe(g, p);
    assert g == 1;
    x := z;
    CongFrom(a * x, 1, -y, p);
  }

  /** Euclid's lemma. */
  lemma Euclid(p: int, a: int, b: int)
    requires Prime(p) && Divides(p, a * b) && a >= 0
    ensures Divides(p, a) || Divides(p, b)
  {
    if !Divides(p, a) {
      var x := Inverse(p, a);
      var k := CongTo(a * x, 1, p);
      var j := DividesTo(p, a * b);
      EuclidStep(p, a, b, x, k, j);
      DividesFrom(p, b, j * x - k * b);
    }
  }

  lemma EuclidStep(p: int, a: int, b: int, x: int, k: int, j: int)
    requires a * x == 1 + p * k && a * b == p * j
    ensures b == p * (j * x - k * b)
  {
    assert b * (a * x) == b + b * (p * k);
    assert b * (a * x) == (a * b) * x;
    assert (p * j) * x == p * (j * x);
    assert b * (p * k) == p * (k * b);
    MulDistrib(p, j * x, k * b);
  }

  // ---------------------------------------------------------------- the binomial theorem

  function Binomial(n: nat, k: nat): nat {
    if k == 0 then 1 else if n == 0 then 0 else Binomial(n - 1, k - 1) + Binomial(n - 1, k)
  }

  lemma {:induction false} BinomialZero(n: nat, k: nat)
    requires k > n
    ensures Binomial(n, k) == 0
    decreases n
  {
    if n > 0 { BinomialZero(n - 1, k - 1); BinomialZero(n - 1, k); }
  }

  /** Choosing a set of k with a distinguished member. */
  lemma {:induction false} BinomialAbsorb(n: nat, k: nat)
    requires n > 0 && k > 0
    ensures k * Binomial(n, k) == n * Binomial(n - 1, k - 1)
    decreases n
  {
    var m := n - 1;
    if m == 0 {
      if k > 1 { BinomialZero(1, k); BinomialZero(0, k - 1); }
    } else {
      BinomialAbsorb(m, k);
      var a, b := Binomial(m, k - 1) as int, Binomial(m, k) as int;
      assert k * Binomial(n, k) == k * a + k * b;
      assert k * b == m * Binomial(m - 1, k - 1);
      if k == 1 {
        assert Binomial(m - 1, 0) == 1 && a == 1;
      } else {
        BinomialAbsorb(m, k - 1);
        var c, d := Binomial(m - 1, k - 2) as int, Binomial(m - 1, k - 1) as int;
        assert a == c + d && (k - 1) * a == m * c;
        AbsorbStep(m, k, a, c, d);
      }
    }
  }

  lemma AbsorbStep(m: int, k: int, a: int, c: int, d: int)
    requires a == c + d && (k - 1) * a == m * c
    ensures k * a + m * d == (m + 1) * a
  {
    assert k * a == (k - 1) * a + a;
    assert m * a == m * c + m * d;
  }

  /** The first m terms of the expansion of (1 + a)^n. */
  function Expansion(n: nat, a: nat, m: nat): int {
    if m == 0 then 0 else Expansion(n, a, m - 1) + Binomial(n, m - 1) * Power(a, m - 1)
  }

  lemma {:induction false} ExpansionStep(n: nat, a: nat, m: nat)
    ensures Expansion(n + 1, a, m + 1) == Expansion(n, a, m + 1) + a * Expansion(n, a, m)
    decreases m
  {
    if m > 0 {
      ExpansionStep(n, a, m - 1);
      PascalTerm(n, a, m);
      MulDistrib(a, Expansion(n, a, m - 1), Binomial(n, m - 1) * Power(a, m - 1));
    }
  }

  lemma PascalTerm(n: nat, a: nat, m: nat)
    requires m > 0
    ensures Binomial(n + 1, m) * Power(a, m)
         == Binomial(n, m) * Power(a, m) + a * (Binomial(n, m - 1) * Power(a, m - 1))
  {
    assert Binomial(n + 1, m) == Binomial(n, m - 1) + Binomial(n, m);
    assert Power(a, m) == a * Power(a, m - 1);
    hide Binomial, Power;
    PascalProduct(a, Power(a, m - 1), Binomial(n, m - 1), Binomial(n, m));
  }

  lemma PascalProduct(a: int, q: int, b: int, c: int)
    ensures (b + c) * (a * q) == c * (a * q) + a * (b * q)
  {
    MulDistrib(a * q, b, c);
    MulAssoc(a, b, q); MulAssoc(b, a, q);
  }

  lemma {:induction false} BinomialTheorem(n: nat, a: nat)
    ensures Expansion(n, a, n + 1) == Power(1 + a, n)
    decreases n
  {
    if n == 0 {
      assert Expansion(0, a, 1) == Expansion(0, a, 0) + Binomial(0, 0) * Power(a, 0);
    } else {
      BinomialTheorem(n - 1, a);
      ExpansionStep(n - 1, a, n);
      BinomialZero(n - 1, n);
      assert Expansion(n - 1, a, n + 1) == Expansion(n - 1, a, n) + Binomial(n - 1, n) * Power(a, n);
      assert (1 + a) * Power(1 + a, n - 1) == Power(1 + a, n - 1) + a * Power(1 + a, n - 1);
    }
  }

  // ---------------------------------------------------------------- Fermat

  /** A prime divides all the inner terms. */
  lemma {:induction false} InnerTerms(p: int, a: nat, m: nat)
    requires Prime(p) && 1 <= m <= p
    ensures Cong(Expansion(p, a, m), 1, p)
    decreases m
  {
    if m == 1 {
      assert Expansion(p, a, 1) == Expansion(p, a, 0) + Binomial(p, 0) * Power(a, 0) == 1;
    } else {
      InnerTerms(p, a, m - 1);
      var k := m - 1;
      BinomialAbsorb(p, k);
      DividesFrom(p, k * Binomial(p, k), Binomial(p - 1, k - 1));
      Euclid(p, k, Binomial(p, k));
      if Divides(p, k) { DividesLe(p, k); assert false; }
      DividesMul(p, Binomial(p, k), Power(a, k));
      CongAdd(Expansion(p, a, k), 1, Binomial(p, k) * Power(a, k), 0, p);
    }
  }

  lemma {:induction false} FermatPower(p: int, a: nat)
    requires Prime(p)
    ensures Cong(Power(a, p), a, p)
    decreases a
  {
    if a == 0 {
      assert Power(0, p) == 0 * Power(0, p - 1);
    } else {
      FermatPower(p, a - 1);
      BinomialTheorem(p, a - 1);
      InnerTerms(p, a - 1, p);
      BinomialTop(p);
      assert Expansion(p, a - 1, p + 1) == Expansion(p, a - 1, p) + Binomial(p, p) * Power(a - 1, p);
      CongAdd(Expansion(p, a - 1, p), 1, Power(a - 1, p), a - 1, p);
    }
  }

  lemma {:induction false} BinomialTop(n: nat)
    ensures Binomial(n, n) == 1
  {
    if n > 0 { BinomialTop(n - 1); BinomialZero(n - 1, n); }
  }

  /** Fermat's little theorem. */
  lemma Fermat(p: int, a: nat)
    requires Prime(p) && !Divides(p, a)
    ensures Cong(Power(a, p - 1), 1, p)
  {
    FermatPower(p, a);
    var k := CongTo(Power(a, p), a, p);
    var y := Power(a, p - 1);
    assert a * (y - 1) == p * k by { MulDistrib(a, y, 1); }
    DividesFrom(p, a * (y - 1), k);
    Euclid(p, a, y - 1);
    var j := DividesTo(p, y - 1);
    CongFrom(y, 1, j, p);
  }

  // ---------------------------------------------------------------- powers modulo n

  /** A power of a number whose a-th power is 1. */
  lemma PowerMultiple(x: int, a: nat, b: nat, n: int)
    requires n > 0 && Cong(Power(x, a), 1, n)
    ensures Cong(Power(x, a * b), 1, n)
  {
    hide Cong;
    PowerProduct(x, a, b);
    PowerCong(Power(x, a), 1, b, n);
    PowerOne(b);
  }

  /** A congruence modulo n holds modulo every divisor of n. */
  lemma CongDivisor(x: int, y: int, n: int, d: int)
    requires n > 0 && d > 0 && Divides(d, n) && Cong(x, y, n)
    ensures Cong(x, y, d)
  {
    var k := CongTo(x, y, n);
    var j := DividesTo(d, n);
    MulAssoc(d, j, k);
    CongFrom(x, y, j * k, d);
  }

  // ---------------------------------------------------------------- Pocklington

  /** b - 1 has the inverse t. */
  ghost predicate Inverts(b: int, t: int, n: int) {
    n > 0 && Cong((b - 1) * t, 1, n)
  }

  /** b has order exactly q modulo n and modulo every factor of n. */
  ghost predicate Witness(n: int, q: int, b: int) {
    && n > 1 && Prime(q) && Divides(q, n - 1) && b >= 0
    && Cong(Power(b, q), 1, n)
    && exists t :: Inverts(b, t, n)
  }

  /** Two exponents without a common factor: 1 as a difference of multiples. */
  lemma OneAsDifference(q: int, m: int) returns (x: nat, y: nat)
    requires Prime(q) && m > 0 && !Divides(q, m)
    ensures q * x == 1 + m * y
  {
    var z := Inverse(q, m);
    var k := CongTo(m * z, 1, q);
    var w := if z < 0 then -z else z;
    // m * (-z + q * w) is congruent to -1 modulo q, and nonnegative
    y := NonNegative(q, z, w);
    var x' := -k + m * w;
    assert q * x' == 1 + m * y by { DifferenceStep(q, m, z, k, w); }
    if x' < 0 { MulLe(q, x', -1); MulLe(m, 0, y); assert false; }
    x := x';
  }

  lemma NonNegative(q: int, z: int, w: int) returns (y: nat)
    requires q >= 1 && w >= 0 && -w <= z <= w
    ensures y == -z + q * w
  {
    MulLe(w, 1, q);
    y := -z + q * w;
  }

  lemma DifferenceStep(q: int, m: int, z: int, k: int, w: int)
    requires m * z == 1 + q * k
    ensures q * (-k + m * w) == 1 + m * (-z + q * w)
  {
    MulDistrib(q, -k, m * w);
    MulDistrib(m, -z, q * w);
    MulAssoc(q, m, w); MulAssoc(m, q, w);
    assert q * (-k) == -(q * k) && m * (-z) == -(m * z);
  }

  /** Every prime factor l of n is 1 more than a multiple of q. */
  lemma FactorShape(n: int, q: int, b: int, l: int)
    requires Witness(n, q, b) && Prime(l) && Divides(l, n)
    ensures Divides(q, l - 1)
  {
    hide Power, Cong, Divides;
    CongDivisor(Power(b, q), 1, n, l);
    var t :| Inverts(b, t, n);
    CongDivisor((b - 1) * t, 1, n, l);
    if !Divides(q, l - 1) {
      if Divides(l, b) {
        ZeroPower(b, q, l);
      } else {
        Fermat(l, b);
        var x, y := OneAsDifference(q, l - 1);
        UnitPower(b, q, l - 1, x, y, l);
        NotUnit(b, t, l);
      }
    }
  }

  /** b = b^(1 + m y) = b^(q x) = 1 */
  lemma UnitPower(b: int, q: nat, m: nat, x: nat, y: nat, l: int)
    requires l > 0 && Cong(Power(b, q), 1, l) && Cong(Power(b, m), 1, l) && q * x == 1 + m * y
    ensures Cong(b, 1, l)
  {
    hide Power, Cong;
    PowerMultiple(b, q, x, l);
    PowerMultiple(b, m, y, l);
    PowerSum(b, 1, m * y);
    OnePower(b);
    CongSame(b, l);
    CongMul(b, b, Power(b, m * y), 1, l);
    CongSymmetric(b * Power(b, m * y), b * 1, l);
    CongTrans(b, b * Power(b, m * y), 1, l);
  }

  lemma NotUnit(b: int, t: int, l: int)
    requires l > 1 && Cong(b, 1, l)
    ensures !Cong((b - 1) * t, 1, l)
  {
    CongAdd(b, 1, 1, 1, l);
    CongMul(b - 1, 0, t, t, l);
    DivModUnique(1, l, 0, 1);
  }

  lemma OnePower(b: int)
    ensures Power(b, 1) == b
  {
    assert Power(b, 0) == 1;
  }

  lemma ZeroPower(b: int, q: int, l: int)
    requires q > 0 && l > 1 && Divides(l, b)
    ensures !Cong(Power(b, q), 1, l)
  {
    DividesMul(l, b, Power(b, q - 1));
    DivModUnique(1, l, 0, 1);
  }

  /** The least divisor from d on. */
  lemma {:induction false} LeastFactor(n: int, d: int) returns (l: int)
    requires 2 <= d <= n && forall k :: 2 <= k < d ==> !Divides(k, n)
    ensures d <= l <= n && Divides(l, n) && Prime(l)
    decreases n - d
  {
    if Divides(d, n) {
      l := d;
      forall k | 2 <= k < d ensures !Divides(k, d) {
        if Divides(k, d) {
          var i := DividesTo(d, n);
          DividesMul(k, d, i);
        }
      }
    } else {
      if d == n { DividesFrom(n, n, 1); }
      l := LeastFactor(n, d + 1);
    }
  }

  /** A number without a prime factor up to its root is prime. */
  lemma NoSmallFactor(n: int, f: int)
    requires n >= 2 && f >= 1 && n < (f + 1) * (f + 1)
    requires forall l :: Prime(l) && Divides(l, n) ==> l > f
    ensures Prime(n)
  {
    forall d | 2 <= d < n ensures !Divides(d, n) {
      if Divides(d, n) {
        var k := DividesTo(d, n);
        if k <= 1 { MulLe(d, k, 1); }
        var small := if d <= k then d else k;
        SmallFactor(n, d, k, small, f);
        DividesFrom(d, n, k); DividesFrom(k, n, d);
        var l := LeastFactor(small, 2);
        var i := DividesTo(l, small);
        var j := DividesTo(small, n);
        MulAssoc(l, i, j);
        DividesFrom(l, n, i * j);
        assert false;
      }
    }
  }

  lemma SmallFactor(n: int, d: int, k: int, small: int, f: int)
    requires n == d * k && d >= 2 && k >= 2 && small == (if d <= k then d else k) && f >= 1 && n < (f + 1) * (f + 1)
    ensures small <= f
  {
    if small > f {
      MulLe(d, f + 1, k);
      MulLe(f + 1, f + 1, d);
    }
  }

  /** One witness for a factor beyond the root of n. */
  lemma Pocklington(n: int, q: int, b: int)
    requires Witness(n, q, b) && n < (q + 1) * (q + 1)
    ensures Prime(n)
  {
    forall l | Prime(l) && Divides(l, n) ensures l > q {
      FactorShape(n, q, b, l);
      DividesLe(q, l - 1);
    }
    NoSmallFactor(n, q);
  }

  /** Two witnesses for different factors whose product is beyond the root of n. */
  lemma Pocklington2(n: int, q: int, b: int, q': int, b': int)
    requires Witness(n, q, b) && Witness(n, q', b') && q' < q && n < (q * q' + 1) * (q * q' + 1)
    ensures Prime(n)
  {
    MulLe(q, 1, q');
    forall l | Prime(l) && Divides(l, n) ensures l > q * q' {
      FactorShape(n, q, b, l);
      FactorShape(n, q', b', l);
      var k := DividesTo(q, l - 1);
      Euclid(q', q, k);
      if Divides(q', q) {
        assert false;
      }
      var j := DividesTo(q', k);
      MulAssoc(q, q', j);
      DividesFrom(q * q', l - 1, j);
      DividesLe(q * q', l - 1);
    }
    NoSmallFactor(n, q * q');
  }
}
