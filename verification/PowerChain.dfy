/** Certificates of primality: powers by repeated squaring, small primes by trial division, and
    witnesses for Pocklington's criterion. */
module PowerChain {
  import opened Arith
  import opened Primes

  // ---------------------------------------------------------------- one line of a chain

  lemma Start(a: int, n: int)
    requires n > 0
    ensures Cong(Power(a, 1), a, n)
  {
    assert Power(a, 1) == a * Power(a, 0) == a;
  }

  /** From a^e = x to a^(2 e) = x * x. */
  lemma Sq(n: int, a: int, e: nat, x: int, z: int) returns (e': nat)
    requires n > 0 && Cong(Power(a, e), x, n) && (x * x) % n == z
    ensures e' == 2 * e && Cong(Power(a, e'), z, n)
  {
    hide Cong, Power;
    e' := 2 * e;
    PowerSum(a, e, e);
    CongMul(Power(a, e), x, Power(a, e), x, n);
    Reduce(Power(a, e'), x * x, z, n);
  }

  lemma Reduce(v: int, x: int, z: int, n: int)
    requires n > 0 && Cong(v, x, n) && x % n == z
    ensures Cong(v, z, n)
  {
    CongMod(x, n);
  }

  /** From a^e = x to a^(e + 1) = x * a. */
  lemma Up(n: int, a: int, e: nat, x: int) returns (e': nat)
    requires n > 0 && Cong(Power(a, e), x, n)
    ensures e' == e + 1 && Cong(Power(a, e'), a * x, n)
  {
    hide Cong;
    e' := e + 1;
    CongSame(a, n);
    CongMul(a, a, Power(a, e), x, n);
  }

  /** The same with the quotient q given. */
  lemma SqBy(m: int, a: int, e: nat, x: int, z: int, q: int) returns (e': nat)
    requires m > 0 && Cong(Power(a, e), x, m) && x * x == m * q + z && 0 <= z < m
    ensures e' == 2 * e && Cong(Power(a, e'), z, m)
  {
    DivModUnique(x * x, m, q, z);
    e' := Sq(m, a, e, x, z);
  }

  lemma SqUpBy(m: int, a: int, e: nat, x: int, z: int, q: int) returns (e': nat)
    requires m > 0 && Cong(Power(a, e), x, m) && x * x == m * q + z && 0 <= z < m
    ensures e' == 2 * e + 1 && Cong(Power(a, e'), a * z, m)
  {
    e' := SqBy(m, a, e, x, z, q);
    e' := Up(m, a, e', z);
  }

  // ---------------------------------------------------------------- trial division

  ghost predicate NoneBelow(n: int, k: int) {
    forall d :: 2 <= d < k ==> !Divides(d, n)
  }

  lemma Next8(n: int, d: int)
    requires d > 0 && NoneBelow(n, d) && n % d != 0 && n % (d + 1) != 0 && n % (d + 2) != 0 && n % (d + 3) != 0
    requires n % (d + 4) != 0 && n % (d + 5) != 0 && n % (d + 6) != 0 && n % (d + 7) != 0
    ensures NoneBelow(n, d + 8)
  {}

  lemma NextOne(n: int, d: int)
    requires d > 0 && NoneBelow(n, d) && n % d != 0
    ensures NoneBelow(n, d + 1)
  {}

  lemma SmallPrime(n: int, hi: int, k: int)
    requires n >= 2 && hi >= 1 && n < (hi + 1) * (hi + 1) && k > hi && NoneBelow(n, k)
    ensures Prime(n)
  {
    NoSmallFactor(n, hi);
  }

  lemma NoneYet(n: int)
    ensures NoneBelow(n, 2)
  {}

  // ---------------------------------------------------------------- witnesses

  /** The witness b = a^r of q, from a^(q r) = 1. */
  lemma MakeWitness(n: int, q: int, a: nat, r: nat, b: int, t: int)
    requires n > 1 && Prime(q) && n - 1 == q * r && b >= 0
    requires Cong(Power(a, n - 1), 1, n) && Cong(Power(a, r), b, n) && ((b - 1) * t) % n == 1
    ensures Witness(n, q, b)
  {
    hide Power, Cong;
    DividesFrom(q, n - 1, r);
    PowerProduct(a, r, q);
    PowerCong(Power(a, r), b, q, n);
    assert r * q == q * r;
    CongSymmetric(Power(Power(a, r), q), Power(b, q), n);
    CongTrans(Power(b, q), Power(a, n - 1), 1, n);
    Unit(b, t, n);
  }

  lemma Unit(b: int, t: int, n: int)
    requires n > 1 && ((b - 1) * t) % n == 1
    ensures Inverts(b, t, n)
  {
    DivModUnique(1, n, 0, 1);
  }

  /** If a^r = b and b^q = 1 then a^(q r) = 1. */
  lemma WholePower(n: int, q: nat, a: nat, r: nat, b: int)
    requires n > 1 && n - 1 == q * r && Cong(Power(a, r), b, n) && Cong(Power(b, q), 1, n)
    ensures Cong(Power(a, n - 1), 1, n)
  {
    hide Power, Cong;
    PowerProduct(a, r, q);
    PowerCong(Power(a, r), b, q, n);
    assert r * q == q * r;
    CongTrans(Power(a, n - 1), Power(b, q), 1, n);
  }
}
