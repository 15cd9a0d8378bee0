/** Products, quotients and congruences of integers. */
module Arith {

  lemma MulLe(p: int, a: int, b: int)
    requires 0 <= p && a <= b
    ensures p * a <= p * b
  {}

  lemma MulAssoc(a: int, b: int, c: int)
    ensures a * (b * c) == (a * b) * c
  {}

  lemma MulDistrib(p: int, a: int, b: int)
    ensures p * (a + b) == p * a + p * b
    ensures p * (a - b) == p * a - p * b
  {}

  lemma MulLt(p: int, a: int, b: int)
    requires 0 < p && a < b
    ensures p * a < p * b
    ensures p * a + p <= p * b
  {
    MulLe(p, a + 1, b);
    assert p * (a + 1) == p * a + p;
  }

  /** Quotient and remainder are unique. */
  lemma DivModUnique(x: int, b: int, q: int, r: int)
    requires 0 < b && x == b * q + r && 0 <= r < b
    ensures x / b == q && x % b == r
  {
    var q', r' := x / b, x % b;
    assert x == b * q' + r';
    if q' < q {
      MulLt(b, q', q);
    } else if q < q' {
      MulLt(b, q, q');
    }
  }

  lemma DivDiv(x: int, a: int, b: int)
    requires a > 0 && b > 0
    ensures a * b > 0 && (x / a) / b == x / (a * b)
  {
    MulLt(a, 0, b);
    var q, y := x / a, x % a;
    var q1, z := q / b, q % b;
    assert x == a * q + y && q == b * q1 + z;
    assert x == (a * b) * q1 + (a * z + y) by { MulDistrib(a, b * q1, z); MulAssoc(a, b, q1); }
    assert 0 <= a * z + y < a * b by { MulLe(a, 0, z); MulLt(a, z, b); }
    DivModUnique(x, a * b, q1, a * z + y);
  }

  // ---------------------------------------------------------------- congruence

  /** x and y differ by a multiple of m. */
  ghost predicate Cong(x: int, y: int, m: int)
    requires m > 0
  {
    x % m == y % m
  }

  lemma CongFrom(x: int, y: int, k: int, m: int)
    requires m > 0 && x == y + m * k
    ensures Cong(x, y, m)
  {
    var q, r := y / m, y % m;
    assert y == m * q + r;
    assert x == m * (q + k) + r by { assert m * (q + k) == m * q + m * k; }
    DivModUnique(x, m, q + k, r);
  }

  lemma CongTo(x: int, y: int, m: int) returns (k: int)
    requires m > 0 && Cong(x, y, m)
    ensures x == y + m * k
  {
    k := x / m - y / m;
    assert x == m * (x / m) + x % m && y == m * (y / m) + y % m;
    assert m * (x / m) - m * (y / m) == m * k;
  }

  lemma CongAdd(x: int, x': int, y: int, y': int, m: int)
    requires m > 0 && Cong(x, x', m) && Cong(y, y', m)
    ensures Cong(x + y, x' + y', m) && Cong(x - y, x' - y', m)
  {
    var a := CongTo(x, x', m);
    var b := CongTo(y, y', m);
    assert m * (a + b) == m * a + m * b && m * (a - b) == m * a - m * b;
    CongFrom(x + y, x' + y', a + b, m);
    CongFrom(x - y, x' - y', a - b, m);
  }

  lemma CongMul(x: int, x': int, y: int, y': int, m: int)
    requires m > 0 && Cong(x, x', m) && Cong(y, y', m)
    ensures Cong(x * y, x' * y', m)
  {
    var a := CongTo(x, x', m);
    var b := CongTo(y, y', m);
    var k := a * y + x' * b;
    MulExpand(x', a, y, y', b, m);
    CongFrom(x * y, x' * y', k, m);
  }

  lemma MulExpand(x': int, a: int, y: int, y': int, b: int, m: int)
    requires y == y' + m * b
    ensures (x' + m * a) * y == x' * y' + m * (a * y + x' * b)
  {
    assert (x' + m * a) * y == x' * y + m * a * y;
    assert x' * y == x' * y' + x' * (m * b);
    assert x' * (m * b) == m * (x' * b);
    assert m * a * y == m * (a * y);
    assert m * (a * y + x' * b) == m * (a * y) + m * (x' * b);
  }

  lemma CongSame(x: int, m: int)
    requires m > 0
    ensures Cong(x, x, m)
  {}

  lemma CongSymmetric(x: int, y: int, m: int)
    requires m > 0 && Cong(x, y, m)
    ensures Cong(y, x, m)
  {}

  lemma CongTrans(x: int, y: int, z: int, m: int)
    requires m > 0 && Cong(x, y, m) && Cong(y, z, m)
    ensures Cong(x, z, m)
  {}

  lemma CongMod(x: int, m: int)
    requires m > 0
    ensures 0 <= x % m < m && Cong(x % m, x, m)
  {
    DivModUnique(x % m, m, 0, x % m);
  }

  /** The representative below the modulus is unique. */
  lemma CongReduced(x: int, y: int, m: int)
    requires m > 0 && Cong(x, y, m) && 0 <= x < m
    ensures x == y % m
  {
    DivModUnique(x, m, 0, x);
  }

  // ---------------------------------------------------------------- divisibility

  ghost predicate Divides(d: int, x: int)
    requires d > 0
  {
    x % d == 0
  }

  lemma DividesFrom(d: int, x: int, k: int)
    requires d > 0 && x == d * k
    ensures Divides(d, x)
  {
    DivModUnique(x, d, k, 0);
  }

  lemma DividesTo(d: int, x: int) returns (k: int)
    requires d > 0 && Divides(d, x)
    ensures x == d * k
  {
    k := x / d;
  }

  lemma DividesSub(d: int, x: int, y: int)
    requires d > 0 && Divides(d, y)
    ensures Divides(d, x) <==> Divides(d, x - y)
  {
    var j := DividesTo(d, y);
    if Divides(d, x) {
      var k := DividesTo(d, x);
      MulDistrib(d, k, j);
      DividesFrom(d, x - y, k - j);
    }
    if Divides(d, x - y) {
      var k := DividesTo(d, x - y);
      MulDistrib(d, k, j);
      DividesFrom(d, x, k + j);
    }
  }

  // ---------------------------------------------------------------- powers of two

  function Two(k: nat): (r: nat)
    ensures r > 0
  {
    if k == 0 then 1 else 2 * Two(k - 1)
  }

  lemma {:induction false} TwoAdd(j: nat, k: nat)
    ensures Two(j + k) == Two(j) * Two(k)
  {
    if j > 0 {
      TwoAdd(j - 1, k);
      MulAssoc(2, Two(j - 1), Two(k));
    }
  }

  lemma {:induction false} TwoMono(j: nat, k: nat)
    requires j <= k
    ensures Two(j) <= Two(k)
  {
    if j < k { TwoMono(j, k - 1); }
  }

  lemma TwoNext(k: nat)
    ensures Two(k + 1) == 2 * Two(k)
  {}

  // ---------------------------------------------------------------- powers

  function Power(x: int, n: nat): int {
    if n == 0 then 1 else x * Power(x, n - 1)
  }

  lemma {:induction false} PowerSum(x: int, a: nat, b: nat)
    ensures Power(x, a + b) == Power(x, a) * Power(x, b)
    decreases a
  {
    if a > 0 {
      PowerSum(x, a - 1, b);
      MulAssoc(x, Power(x, a - 1), Power(x, b));
    }
  }

  lemma {:induction false} PowerProduct(x: int, a: nat, b: nat)
    ensures Power(x, a * b) == Power(Power(x, a), b)
    decreases b
  {
    if b > 0 {
      PowerProduct(x, a, b - 1);
      MulDistrib(a, b, 1);
      PowerSum(x, a, a * (b - 1));
    } else {
      assert a * b == 0;
    }
  }

  lemma {:induction false} PowerCong(x: int, y: int, e: nat, n: int)
    requires n > 0 && Cong(x, y, n)
    ensures Cong(Power(x, e), Power(y, e), n)
    decreases e
  {
    if e > 0 {
      PowerCong(x, y, e - 1, n);
      CongMul(x, y, Power(x, e - 1), Power(y, e - 1), n);
    }
  }

  lemma {:induction false} PowerOne(e: nat)
    ensures Power(1, e) == 1
  {
    if e > 0 { PowerOne(e - 1); }
  }

  // ---------------------------------------------------------------- bytes

  type Byte = x: int | 0 <= x < 256

  /** The n low bytes, most significant first. */
  function BigEndian(x: nat, n: nat): (s: seq<Byte>)
    ensures |s| == n
  {
    if n == 0 then [] else BigEndian(x / 256, n - 1) + [x % 256]
  }
}
