/** Square roots modulo the prime of secp256r1, by square and multiply. */
module EccSqrt {
  import opened Arith
  import opened EccDigits
  import opened EccVli
  import opened EccP256
  import opened Primes
  import PrimeP256

  /** `vli_testBit` */
  function TestBit(s: seq<Word>, bit: nat): bool
    requires bit / 64 < |s|
  {
    (s[bit / 64] / Two(bit % 64)) % 2 == 1
  }

  /** A bit of a digit is a bit of the number. */
  lemma TestBitIs(s: seq<Word>, bit: nat)
    requires bit / 64 < |s|
    ensures TestBit(s, bit) <==> (Value(s) / Two(bit)) % 2 == 1
  {
    hide Value, Pow, Two;
    BitAt(s, bit / 64, bit % 64);
  }

  lemma BitAt(s: seq<Word>, d: nat, b: nat)
    requires d < |s| && b < 64
    ensures (Value(s) / Two(64 * d + b)) % 2 == (s[d] / Two(b)) % 2
  {
    hide Value, Pow, Two;
    var t: nat, u: nat := Two(64 * d), Two(b);
    TwoAdd(64 * d, b);
    assert t * u == Two(64 * d + b);
    DivDiv(Value(s), t, u);
    DigitsFrom(s, d);
    DigitBit(s[d], Value(s[d + 1..]), b);
  }

  /** Dropping whole digits is a division. */
  lemma DigitsFrom(s: seq<Word>, d: nat)
    requires d < |s|
    ensures Value(s) / Two(64 * d) == s[d] + BASE * Value(s[d + 1..])
  {
    hide Value, Pow, Two;
    ValueSplit(s, d);
    ValueBound(s[..d]);
    PowTwo(d);
    assert s[d..] == [s[d]] + s[d + 1..];
    ValueCons(s[d], s[d + 1..]);
    DivModUnique(Value(s), Two(64 * d), Value(s[d..]), Value(s[..d]));
  }

  lemma DigitBit(lo: int, hi: int, b: nat)
    requires b < 64
    ensures ((lo + BASE * hi) / Two(b)) % 2 == (lo / Two(b)) % 2
  {
    hide Two;
    TwoAdd(b, 63 - b);
    TwoNext(63);
    Two64();
    LowerBits(lo, hi, Two(b), Two(63 - b));
  }

  /** Bits below 64 do not depend on the digits above. */
  lemma LowerBits(lo: int, hi: int, m: int, h: int)
    requires m > 0 && 2 * (m * h) == BASE
    ensures ((lo + BASE * hi) / m) % 2 == (lo / m) % 2
  {
    var q, r := lo / m, lo % m;
    assert lo == m * q + r;
    var k := h * hi;
    assert BASE * hi == m * (2 * k) by {
      MulAssoc(m, h, hi);
      MulAssoc(2, m * h, hi);
      MulAssoc(m, 2, k); MulAssoc(2, m, k);
    }
    MulDistrib(m, q, 2 * k);
    DivModUnique(lo + BASE * hi, m, q + 2 * k, r);
  }

  /** One more bit of the exponent. */
  lemma NextBit(n: nat, i: nat)
    ensures n / Two(i) == 2 * (n / Two(i + 1)) + (n / Two(i)) % 2
  {
    hide Two;
    TwoNext(i);
    DivDiv(n, Two(i), 2);
    assert Two(i) * 2 == Two(i + 1);
  }

  /** The bits of n from bit i up. */
  ghost function Top(n: nat, i: nat): nat {
    QuotientNat(n, Two(i));
    n / Two(i)
  }

  lemma QuotientNat(n: nat, m: int)
    requires m > 0
    ensures n / m >= 0
  {}

  lemma TopBit(s: seq<Word>, n: nat, i: nat)
    requires i / 64 < |s| && Value(s) == n
    ensures Top(n, i) == 2 * Top(n, i + 1) + (if TestBit(s, i) then 1 else 0)
  {
    hide Value, Two;
    NextBit(n, i);
    TestBitIs(s, i);
  }

  /** r is the e-th power of a modulo the prime. */
  ghost predicate HoldsPower(r: int, a: int, e: nat) {
    Cong(r, Power(a, e), PRIME)
  }

  lemma SquarePower(r: int, r': int, a: int, e: nat)
    requires HoldsPower(r, a, e) && r' == (r * r) % PRIME
    ensures HoldsPower(r', a, 2 * e)
  {
    hide Cong, Power;
    PowerSum(a, e, e);
    CongMul(r, Power(a, e), r, Power(a, e), PRIME);
    CongMod(r * r, PRIME);
    CongTrans(r', r * r, Power(a, 2 * e), PRIME);
  }

  lemma TimesPower(r: int, r': int, a: int, e: nat)
    requires HoldsPower(r, a, e) && r' == (r * a) % PRIME
    ensures HoldsPower(r', a, e + 1)
  {
    hide Cong;
    assert Power(a, e + 1) == a * Power(a, e);
    hide Power;
    CongSame(a, PRIME);
    CongMul(r, Power(a, e), a, a, PRIME);
    CongMod(r * a, PRIME);
    CongTrans(r', r * a, Power(a, e + 1), PRIME);
  }

  const ROOT: nat := (PRIME + 1) / 4

  /** A square root of a, if there is one.  It is a to the power (p + 1) / 4: the bits of p + 1
      from the top down to bit 2. */
  method ModSqrt(a: array<Word>, curveP: array<Word>)
    requires a.Length == curveP.Length == 4 && a != curveP && curveP[..] == CURVE_P
    modifies a
    ensures SquareRoot(Val(a, 0, 4), old(Val(a, 0, 4)))
  {
    hide Value, Pow, Two, Cong, Power, HoldsPower, BitLength, Top, TestBit, IsRoot, IsSquare;
    ghost var v := Val(a, 0, 4);
    var p1 := One();
    var result := One();
    AddOne(p1, curveP);
    ghost var n := PRIME + 1;
    var bits := NumBits(p1, 0, 4);
    StartBits(n, bits);
    StartPower(v);
    var i := bits - 1;
    while i > 1
      invariant 1 <= i < 256 && Val(p1, 0, 4) == n && p1[..] == p1[0..4]
      invariant Val(a, 0, 4) == v && HoldsPower(Val(result, 0, 4), v, Top(n, i + 1)) && Val(result, 0, 4) < PRIME
      invariant fresh(p1) && fresh(result) && p1 != result
    {
      ghost var e, r := Top(n, i + 1), Val(result, 0, 4);
      TopBit(p1[..], n, i);
      ModSquareFast(result, result, curveP);
      SquarePower(r, Val(result, 0, 4), v, e);
      if TestBit(p1[..], i) {
        r := Val(result, 0, 4);
        ModMultFast(result, result, a, curveP);
        TimesPower(r, Val(result, 0, 4), v, 2 * e);
      }
      i := i - 1;
    }
    RootBits();
    Set(a, 0, result, 0, 4);
    assert a[0..4] == At(a, 0, 4) && result[0..4] == At(result, 0, 4);
    RootExactlyIfSquare(Val(a, 0, 4), v);
  }

  method One() returns (r: array<Word>)
    ensures fresh(r) && r.Length == 4 && Val(r, 0, 4) == 1
  {
    r := new Word[4](i => if i == 0 then 1 else 0);
    assert r[0..4] == [1, 0, 0, 0];
    Value4(r[0..4]);
  }

  method AddOne(p1: array<Word>, curveP: array<Word>)
    requires p1.Length == curveP.Length == 4 && p1 != curveP && Val(p1, 0, 4) == 1 && curveP[..] == CURVE_P
    modifies p1
    ensures Val(p1, 0, 4) == PRIME + 1
  {
    hide Value, Pow;
    CurvePValue();
    assert curveP[0..4] == CURVE_P;
    var carry := Add(p1, 0, curveP, 0, p1, 0, 4);
    Value4(p1[0..4]);
    ValueBound(p1[0..4]);
  }

  lemma StartBits(n: nat, bits: nat)
    requires n == PRIME + 1 && BitLength(n, bits)
    ensures bits == 256 && Top(n, bits) == 0
  {
    hide Two;
    Two256();
    BitLengthUnique(n, bits, 256);
    DivModUnique(n, Two(256), 0, n);
  }

  lemma Two256()
    ensures Two(256) == WIDE && 2 * Two(255) == WIDE
  {
    assert Two(256) == 2 * Two(255);
    hide Two;
    Two64();
    TwoAdd(64, 64);
    assert Two(128) == BASE * BASE;
    TwoAdd(128, 128);
    MulAssoc(BASE * BASE, BASE, BASE);
  }

  lemma StartPower(v: int)
    ensures HoldsPower(1, v, 0)
  {
    assert Power(v, 0) == 1;
  }

  lemma RootBits()
    ensures Top(PRIME + 1, 2) == ROOT
  {
    assert Two(2) == 4;
  }

  // ---------------------------------------------------------------- square roots

  ghost predicate IsRoot(y: int, a: int) {
    Cong(y * y, a, PRIME)
  }

  ghost predicate IsSquare(a: int) {
    exists y :: IsRoot(y, a)
  }

  /** r is reduced, and it is a root of a exactly when there is one; if not, of the negative. */
  ghost predicate SquareRoot(r: int, a: int) {
    0 <= r < PRIME && (IsRoot(r, a) <==> IsSquare(a)) && (IsRoot(r, a) || IsRoot(r, -a))
  }

  /** The power squares to a whenever a is a square, and to its negative otherwise. */
  lemma RootExactlyIfSquare(r: int, a: int)
    requires HoldsPower(r, a, ROOT)
    ensures IsRoot(r, a) <==> IsSquare(a)
    ensures IsRoot(r, a) || IsRoot(r, -a)
  {
    hide Cong, Power, Prime;
    PrimeP256.PrimeSecp256r1();
    if IsSquare(a) {
      var y :| IsRoot(y, a);
      RootOfSquare(PRIME, r, a, y);
    }
    RootOrNegative(PRIME, r, a);
  }

  /** Modulo a prime that leaves 3 when divided by 4. */
  lemma RootOfSquare(p: nat, r: int, a: int, y: int)
    requires Prime(p) && p % 4 == 3 && Cong(r, Power(a, (p + 1) / 4), p) && Cong(y * y, a, p)
    ensures Cong(r * r, a, p)
  {
    hide Cong, Power, Prime, Divides;
    PrimeAbove(p);
    var h := (p - 1) / 2;
    PowerSquared(p, r, a);
    if Divides(p, a) {
      ZeroTimes(p, a, Power(a, h));
      CongTrans(r * r, a * Power(a, h), a, p);
    } else {
      EulerOne(p, a, y, h);
      UnitTimes(p, a, Power(a, h));
      CongTrans(r * r, a * Power(a, h), a, p);
    }
  }

  lemma PrimeAbove(p: nat)
    requires Prime(p)
    ensures p > 1
  {}

  lemma PowerSquared(p: nat, r: int, a: int)
    requires p > 0 && p % 4 == 3 && Cong(r, Power(a, (p + 1) / 4), p)
    ensures Cong(r * r, a * Power(a, (p - 1) / 2), p)
  {
    hide Cong, Power;
    var e: nat := (p + 1) / 4;
    CongMul(r, Power(a, e), r, Power(a, e), p);
    PowerSum(a, e, e);
    PowerFirst(a, (p - 1) / 2);
    assert e + e == (p - 1) / 2 + 1;
  }

  lemma ZeroTimes(p: nat, a: int, s: int)
    requires p > 0 && Divides(p, a)
    ensures Cong(a * s, a, p)
  {
    var k := DividesTo(p, a);
    MulAssoc(p, k, s);
    MulDistrib(p, k * s, -k);
    CongFrom(a * s, a, k * s - k, p);
  }

  lemma UnitTimes(p: nat, a: int, s: int)
    requires p > 0 && Cong(s, 1, p)
    ensures Cong(a * s, a, p)
  {
    hide Cong;
    CongSame(a, p);
    CongMul(a, a, s, 1, p);
  }

  /** Fermat's theorem for integers of any sign. */
  lemma FermatAny(p: nat, y: int)
    requires Prime(p) && !Divides(p, y)
    ensures p > 1 && Cong(Power(y, p - 1), 1, p)
  {
    PrimeAbove(p);
    var z: nat := y % p;
    CongMod(y, p);
    assert !Divides(p, z);
    hide Cong, Power, Prime, Divides;
    Fermat(p, z);
    PowerCong(z, y, p - 1, p);
    CongSymmetric(Power(z, p - 1), Power(y, p - 1), p);
    CongTrans(Power(y, p - 1), Power(z, p - 1), 1, p);
  }

  /** Euler's criterion: a square to the power (p - 1) / 2. */
  lemma EulerOne(p: nat, a: int, y: int, h: nat)
    requires Prime(p) && Cong(y * y, a, p) && !Divides(p, a) && 2 * h == p - 1
    ensures p > 1 && Cong(Power(a, h), 1, p)
  {
    hide Power, Prime;
    PrimeAbove(p);
    if Divides(p, y) { SquareZero(p, a, y); }
    hide Cong, Divides;
    FermatAny(p, y);
    PowerProduct(y, 2, h);
    assert Power(y, 2) == y * y by { PowerFirst(y, 1); PowerFirst(y, 0); assert Power(y, 0) == 1 by { PowerNone(y); } }
    PowerCong(y * y, a, h, p);
    CongSymmetric(Power(y * y, h), Power(a, h), p);
    CongTrans(Power(a, h), Power(y, p - 1), 1, p);
  }

  lemma PowerNone(y: int)
    ensures Power(y, 0) == 1
  {}

  lemma SquareZero(p: nat, a: int, y: int)
    requires p > 0 && Divides(p, y) && Cong(y * y, a, p)
    ensures Divides(p, a)
  {
    DividesMul(p, y, y);
  }

  lemma RootOrNegative(p: nat, r: int, a: int)
    requires Prime(p) && p % 4 == 3 && Cong(r, Power(a, (p + 1) / 4), p)
    ensures p > 1 && (Cong(r * r, a, p) || Cong(r * r, -a, p))
  {
    hide Cong, Power, Prime, Divides;
    PrimeAbove(p);
    var h: nat := (p - 1) / 2;
    var s := Power(a, h);
    PowerSquared(p, r, a);
    if Divides(p, a) {
      ZeroTimes(p, a, s);
      CongTrans(r * r, a * s, a, p);
    } else {
      FermatAny(p, a);
      PowerSum(a, h, h);
      RootsOfOne(p, s);
      if Cong(s, 1, p) {
        UnitTimes(p, a, s);
        CongTrans(r * r, a * s, a, p);
      } else {
        CongSame(a, p);
        CongMul(a, a, s, -1, p);
        CongTrans(r * r, a * s, -a, p);
      }
    }
  }

  /** Only 1 and -1 square to 1. */
  lemma RootsOfOne(p: nat, s: int)
    requires Prime(p) && p > 1 && Cong(s * s, 1, p)
    ensures Cong(s, 1, p) || Cong(s, -1, p)
  {
    hide Prime, Cong, Divides;
    var t: nat := s % p;
    CongMod(s, p);
    CongMul(t, s, t, s, p);
    CongTrans(t * t, s * s, 1, p);
    assert (t - 1) * (t + 1) == t * t - 1 by { MulDistrib(t - 1, t, 1); MulDistrib(t, t, -1); }
    FromCong(p, t * t, 1);
    CongSymmetric(t, s, p);
    if t == 0 {
      NotDividesOne(p);
    } else {
      Euclid(p, t - 1, t + 1);
      if Divides(p, t - 1) { ToCong(p, t, 1); CongTrans(s, t, 1, p); } else { ToCong(p, t, -1); CongTrans(s, t, -1, p); }
    }
  }

  lemma FromCong(p: nat, x: int, y: int)
    requires p > 0 && Cong(x, y, p)
    ensures Divides(p, x - y)
  {
    var k := CongTo(x, y, p);
    DividesFrom(p, x - y, k);
  }

  lemma ToCong(p: nat, x: int, y: int)
    requires p > 0 && Divides(p, x - y)
    ensures Cong(x, y, p)
  {
    var k := DividesTo(p, x - y);
    CongFrom(x, y, k, p);
  }

  lemma NotDividesOne(p: nat)
    requires p > 1
    ensures !Divides(p, -1)
  {
    if Divides(p, -1) {
      var k := DividesTo(p, -1);
      if k >= 0 { MulLe(p, 0, k); } else { MulLe(p, k, -1); }
    }
  }

  lemma PowerFirst(a: int, e: nat)
    ensures Power(a, e + 1) == a * Power(a, e)
  {}
}
