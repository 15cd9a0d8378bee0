/** The inversion of the source: an addition chain for the exponent P - 2. */
module X25519Recip {
  import opened Arith
  import opened Rfc7748
  import opened X25519Field
  import opened X25519Reduce
  import opened X25519Monty

  /** The limbs hold the e-th power of z, reduced to less than 2^26 each. */
  ghost predicate HoldsPower(s: seq<int>, z: int, e: nat) {
    Is(s, Power(z, e)) && Bounded(s, 10, TWO26)
  }

  ghost predicate Has(a: array<Limb>, z: int, e: nat)
    reads a
  {
    HoldsPower(a[..], z, e)
  }

  lemma ProductPower(s: int, t: int, r: int, z: int, a: nat, b: nat)
    requires Cong(s, Power(z, a), P) && Cong(t, Power(z, b), P) && Cong(r, s * t, P)
    ensures Cong(r, Power(z, a + b), P)
  {
    hide Cong;
    PowerSum(z, a, b);
    CongMul(s, Power(z, a), t, Power(z, b), P);
    CongTrans(r, s * t, Power(z, a) * Power(z, b), P);
  }

  method Square(output: array<Limb>, x: array<Limb>, ghost z: int, ghost e: nat)
    requires output.Length == 10 && output != x && Has(x, z, e)
    modifies output
    ensures Has(output, z, 2 * e)
  {
    hide Sum, Cong, Bounded, Power;
    Sized(x[..], TWO26);
    Looser(x[..]);
    Fsquare(output, x);
    ProductPower(Sum(x[..], 10), Sum(x[..], 10), Sum(output[..], 10), z, e, e);
  }

  method Times(output: array<Limb>, x: array<Limb>, y: array<Limb>, ghost z: int, ghost e: nat, ghost f: nat)
    requires output.Length == 10 && output != x && output != y && Has(x, z, e) && Has(y, z, f)
    modifies output
    ensures Has(output, z, e + f)
  {
    hide Sum, Cong, Bounded, Power;
    Sized(x[..], TWO26); Sized(y[..], TWO26);
    Looser(x[..]); Looser(y[..]);
    Fmul(output, x, y);
    ProductPower(Sum(x[..], 10), Sum(y[..], 10), Sum(output[..], 10), z, e, f);
  }

  /** Squarings in pairs, back and forth between two arrays. */
  method SquarePairs(t0: array<Limb>, t1: array<Limb>, n: nat, ghost z: int, ghost e: nat)
    requires t0.Length == t1.Length == 10 && t0 != t1 && n >= 2 && n % 2 == 0 && Has(t1, z, e)
    modifies t0, t1
    ensures Has(t1, z, e * Two(n - 2))
  {
    hide Has, Two;
    var i := 2;
    TwoTwice(e, 0);
    while i < n
      invariant 2 <= i <= n && i % 2 == 0
      invariant Has(t1, z, e * Two(i - 2))
    {
      Square(t0, t1, z, e * Two(i - 2));
      Square(t1, t0, z, 2 * (e * Two(i - 2)));
      TwoTwice(e, i - 2);
      i := i + 2;
    }
  }

  lemma TwoTwice(e: nat, k: nat)
    ensures e * Two(0) == e && e * Two(k + 2) == 2 * (2 * (e * Two(k)))
  {
    MulAssoc(e, 4, Two(k));
    assert Two(k + 2) == 4 * Two(k);
  }

  /** n squarings of a, alternating between t0 and t1, then a product with b. */
  method Raise(output: array<Limb>, a: array<Limb>, b: array<Limb>, t0: array<Limb>, t1: array<Limb>, n: nat,
               ghost z: int, ghost e: nat, ghost f: nat)
    requires output.Length == t0.Length == t1.Length == 10 && n >= 2 && n % 2 == 0
    requires t0 != t1 && output != t1 && output != b && t0 != a && {t0, t1} !! {b} && Has(a, z, e) && Has(b, z, f)
    modifies output, t0, t1
    ensures Has(output, z, e * Two(n) + f)
  {
    hide Has, Two;
    Square(t0, a, z, e);
    Square(t1, t0, z, 2 * e);
    SquarePairs(t0, t1, n, z, 2 * (2 * e));
    RaisedBy(e, n);
    Times(output, t1, b, z, e * Two(n), f);
  }

  lemma RaisedBy(e: nat, n: nat)
    requires n >= 2
    ensures (2 * (2 * e)) * Two(n - 2) == e * Two(n)
  {
    TwoTwice(e, n - 2);
    MulAssoc(4, e, Two(n - 2));
  }

  const N10: nat := 0x3ff
  const N20: nat := 0xf_ffff
  const N40: nat := 0xff_ffff_ffff
  const N50: nat := 0x3_ffff_ffff_ffff
  const N100: nat := 0xf_ffff_ffff_ffff_ffff_ffff_ffff
  const N200: nat := 0xff_ffff_ffff_ffff_ffff_ffff_ffff_ffff_ffff_ffff_ffff_ffff_ffff
  const N250: nat := 0x3ff_ffff_ffff_ffff_ffff_ffff_ffff_ffff_ffff_ffff_ffff_ffff_ffff_ffff_ffff_ffff

  lemma Exponents()
    ensures Two(10) == 0x400 && Two(20) == 0x10_0000 && Two(50) == 0x4_0000_0000_0000
    ensures Two(100) == 0x10_0000_0000_0000_0000_0000_0000
  {
    assert Two(10) == 0x400;
    hide Two;
    TwoAdd(10, 10);
    assert Two(20) == 0x10_0000;
    TwoAdd(20, 20);
    assert Two(40) == 0x100_0000_0000;
    TwoAdd(40, 10);
    assert Two(50) == 0x4_0000_0000_0000;
    TwoAdd(50, 50);
  }

  lemma Chain()
    ensures N10 * Two(10) + N10 == N20 && N20 * Two(20) + N20 == N40 && N40 * Two(10) + N10 == N50
    ensures N50 * Two(50) + N50 == N100 && N100 * Two(100) + N100 == N200 && N200 * Two(50) + N50 == N250
    ensures 2 * (2 * (2 * (2 * (2 * N250)))) + 11 == P - 2
  {
    hide Two;
    Exponents();
  }

  /** 2, 9, 11, 2^5 - 1 and 2^10 - 1. */
  method ShortChain(z: array<Limb>, z11: array<Limb>, z10: array<Limb>, t0: array<Limb>, t1: array<Limb>, ghost v: int)
    requires z11.Length == z10.Length == t0.Length == t1.Length == 10 && Has(z, v, 1)
    requires t0 != t1 && z10 != z11 && {t0, t1} !! {z, z10, z11} && z !in {z10, z11}
    modifies z10, z11, t0, t1
    ensures Has(z11, v, 11) && Has(z10, v, N10)
  {
    hide Has;
    var z2 := new Limb[10];
    var z9 := new Limb[10];
    var z5 := new Limb[10];
    Square(z2, z, v, 1);
    Square(t1, z2, v, 2);
    Square(t0, t1, v, 4);
    Times(z9, t0, z, v, 8, 1);
    Times(z11, z9, z2, v, 9, 2);
    Square(t0, z11, v, 11);
    Times(z5, t0, z9, v, 22, 9);
    FiveMore(z10, z5, t0, t1, v);
  }

  method FiveMore(z10: array<Limb>, z5: array<Limb>, t0: array<Limb>, t1: array<Limb>, ghost v: int)
    requires z10.Length == t0.Length == t1.Length == 10 && t0 != t1 && {t0, t1} !! {z5, z10} && z10 != z5
             && Has(z5, v, 31)
    modifies z10, t0, t1
    ensures Has(z10, v, N10)
  {
    hide Has;
    Square(t0, z5, v, 31);
    Square(t1, t0, v, 62);
    Square(t0, t1, v, 124);
    Square(t1, t0, v, 248);
    Square(t0, t1, v, 496);
    Times(z10, t0, z5, v, 992, 31);
  }

  method Crecip(output: array<Limb>, z: array<Limb>, ghost v: int)
    requires output.Length == 10 && output != z && Is(z[..], v) && Bounded(z[..], 10, TWO26)
    modifies output
    ensures Is(output[..], Power(v, P - 2)) && Bounded(output[..], 10, TWO26)
  {
    hide *;
    FirstPower(z, v);
    var z11 := new Limb[10];
    var z10 := new Limb[10];
    var t0 := new Limb[10];
    var t1 := new Limb[10];
    ShortChain(z, z11, z10, t0, t1, v);
    LongChain(output, z10, z11, t0, t1, v);
    LastPower(output, v);
  }

  lemma FirstPower(a: array<Limb>, v: int)
    requires Is(a[..], v) && Bounded(a[..], 10, TWO26)
    ensures Has(a, v, 1)
  {
    hide Is, Bounded;
    assert Power(v, 1) == v * Power(v, 0) == v;
  }

  lemma LastPower(a: array<Limb>, v: int)
    requires Has(a, v, P - 2)
    ensures Is(a[..], Power(v, P - 2)) && Bounded(a[..], 10, TWO26)
  {
    hide Is, Bounded, Power;
  }

  /** The powers 2^n - 1 from n = 10 up to 250, then the last five squarings. */
  method LongChain(output: array<Limb>, z10: array<Limb>, z11: array<Limb>, t0: array<Limb>, t1: array<Limb>,
                   ghost v: int)
    requires output.Length == t0.Length == t1.Length == 10
    requires t0 != t1 && {t0, t1} !! {z10, z11, output} && output !in {z10, z11}
    requires Has(z10, v, N10) && Has(z11, v, 11)
    modifies output, t0, t1
    ensures Has(output, v, P - 2)
  {
    hide Has, Two;
    Chain();
    var z20 := new Limb[10];
    var z50 := new Limb[10];
    var z100 := new Limb[10];
    Raise(z20, z10, z10, t0, t1, 10, v, N10, N10);
    Raise(t0, z20, z20, t0, t1, 20, v, N20, N20);
    Raise(z50, t0, z10, t1, t0, 10, v, N40, N10);
    Raise(z100, z50, z50, t0, t1, 50, v, N50, N50);
    Raise(t1, z100, z100, t1, t0, 100, v, N100, N100);
    Raise(t0, t1, z50, t0, t1, 50, v, N200, N50);
    Square(t1, t0, v, N250);
    Square(t0, t1, v, 2 * N250);
    Square(t1, t0, v, 2 * (2 * N250));
    Square(t0, t1, v, 2 * (2 * (2 * N250)));
    Square(t1, t0, v, 2 * (2 * (2 * (2 * N250))));
    Times(output, t1, z11, v, 2 * (2 * (2 * (2 * (2 * N250)))), 11);
  }
}
