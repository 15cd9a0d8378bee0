/** `curve25519_donna` computes X25519 of RFC 7748 for every scalar and every u-coordinate. */
module X25519 {
  import opened Arith
  import opened TwosComplement
  import opened Rfc7748
  import opened Primes
  import opened PrimeCertificate
  import opened X25519Field
  import opened X25519Reduce
  import opened X25519Ladder
  import R = X25519Recip
  import B = X25519Bytes
  import C = X25519Contract

  // ---------------------------------------------------------------- deferred swaps

  /** Swapping back after every step, or only where two bits differ. */
  lemma {:induction false} DeferredSwap(k: int, u: int, n: nat)
    requires n <= 255
    ensures Swapped(Ladder(k, u, n).swap, Ladder(k, u, n).points) == PlainLadder(k, u, 255, n)
    decreases n
  {
    if n > 0 {
      DeferredSwap(k, u, n - 1);
      hide Bit, Step;
      var r, bit := Ladder(k, u, n - 1), Bit(k, 255 - n);
      assert Swapped(r.swap != bit, r.points) == Swapped(bit, PlainLadder(k, u, 255, n - 1));
    }
  }

  // ---------------------------------------------------------------- projective scaling

  /** s is t with its two points scaled by a and b. */
  ghost predicate Scaled(s: Points, t: Points, a: int, b: int) {
    && Cong(s.x2, a * t.x2, P) && Cong(s.z2, a * t.z2, P)
    && Cong(s.x3, b * t.x3, P) && Cong(s.z3, b * t.z3, P)
  }

  /** Sums and differences of scaled coordinates are scaled. */
  lemma ScaledSum(x: int, z: int, x': int, z': int, a: int)
    requires Cong(x, a * x', P) && Cong(z, a * z', P)
    ensures Cong(x + z, a * (x' + z'), P) && Cong(x - z, a * (x' - z'), P)
  {
    hide Cong;
    CongAdd(x, a * x', z, a * z', P);
    MulDistrib(a, x', z');
  }

  lemma ScaledProduct(x: int, y: int, x': int, y': int, a: int, b: int)
    requires Cong(x, a * x', P) && Cong(y, b * y', P)
    ensures Cong(x * y, (a * b) * (x' * y'), P)
  {
    hide Cong;
    CongMul(x, a * x', y, b * y', P);
    Exchange(a, x', b, y');
  }

  lemma Exchange(a: int, x: int, b: int, y: int)
    ensures (a * x) * (b * y) == (a * b) * (x * y)
  {
    MulAssoc(a, x, b * y);
    MulAssoc(x, b, y); MulAssoc(b, x, y);
    MulAssoc(a, b, x * y);
  }

  lemma ModCong(x: int)
    ensures Cong(Mod(x), x, P)
  {
    CongMod(x, P);
  }

  lemma ScaledMod(x: int, y: int, a: int)
    requires Cong(x, a * y, P)
    ensures Cong(Mod(x), a * Mod(y), P)
  {
    hide Cong, Mod;
    ModCong(x); ModCong(y);
    CongTrans(Mod(x), x, a * y, P);
    CongSame(a, P);
    CongMul(a, a, Mod(y), y, P);
    CongSymmetric(a * Mod(y), a * y, P);
    CongTrans(Mod(x), a * y, a * Mod(y), P);
  }

  lemma ScaledDouble(s: Points, t: Points, u: int, a: int, b: int)
    requires Scaled(s, t, a, b)
    ensures var aa := a * a; Cong(Step(u, s).x2, (aa * aa) * Step(u, t).x2, P) && Cong(Step(u, s).z2, (aa * aa) * Step(u, t).z2, P)
  {
    hide Cong, Mod;
    ScaledSum(s.x2, s.z2, t.x2, t.z2, a);
    var A, B := s.x2 + s.z2, s.x2 - s.z2;
    var A', B' := t.x2 + t.z2, t.x2 - t.z2;
    ScaledProduct(A, A, A', A', a, a);
    ScaledProduct(B, B, B', B', a, a);
    var AA, BB, AA', BB', aa := A * A, B * B, A' * A', B' * B', a * a;
    ScaledProduct(AA, BB, AA', BB', aa, aa);
    ScaledMod(AA * BB, AA' * BB', aa * aa);
    ScaledSum(AA, BB, AA', BB', aa);
    var E, E' := AA - BB, AA' - BB';
    ScaledTimes(E, E', aa, 121665);
    ScaledSum(AA, 121665 * E, AA', 121665 * E', aa);
    ScaledProduct(E, AA + 121665 * E, E', AA' + 121665 * E', aa, aa);
    ScaledMod(E * (AA + 121665 * E), E' * (AA' + 121665 * E'), aa * aa);
  }

  lemma ScaledTimes(x: int, y: int, a: int, c: int)
    requires Cong(x, a * y, P)
    ensures Cong(c * x, a * (c * y), P)
  {
    hide Cong;
    CongSame(c, P);
    CongMul(c, c, x, a * y, P);
    MulAssoc(c, a, y); MulAssoc(a, c, y);
  }

  lemma ScaledAdd(s: Points, t: Points, u: int, a: int, b: int)
    requires Scaled(s, t, a, b)
    ensures var ab := a * b; Cong(Step(u, s).x3, (ab * ab) * Step(u, t).x3, P) && Cong(Step(u, s).z3, (ab * ab) * Step(u, t).z3, P)
  {
    hide Cong, Mod;
    ScaledSum(s.x2, s.z2, t.x2, t.z2, a);
    ScaledSum(s.x3, s.z3, t.x3, t.z3, b);
    var A, B, C, D := s.x2 + s.z2, s.x2 - s.z2, s.x3 + s.z3, s.x3 - s.z3;
    var A', B', C', D' := t.x2 + t.z2, t.x2 - t.z2, t.x3 + t.z3, t.x3 - t.z3;
    ScaledProduct(D, A, D', A', b, a);
    ScaledProduct(C, B, C', B', b, a);
    var DA, CB, DA', CB', ab := D * A, C * B, D' * A', C' * B', a * b;
    assert b * a == ab;
    ScaledSum(DA, CB, DA', CB', ab);
    ScaledProduct(DA + CB, DA + CB, DA' + CB', DA' + CB', ab, ab);
    ScaledMod((DA + CB) * (DA + CB), (DA' + CB') * (DA' + CB'), ab * ab);
    ScaledProduct(DA - CB, DA - CB, DA' - CB', DA' - CB', ab, ab);
    var F, F' := (DA - CB) * (DA - CB), (DA' - CB') * (DA' - CB');
    ScaledTimes(F, F', ab * ab, u);
    ScaledMod(u * F, u * F', ab * ab);
  }

  /** A step takes scaled points to scaled points; the scales stay powers of c. */
  lemma ScaledStep(s: Points, t: Points, u: int, c: int, i: nat, j: nat)
    requires Scaled(s, t, Power(c, i), Power(c, j))
    ensures Scaled(Step(u, s), Step(u, t), Power(c, 4 * i), Power(c, 2 * (i + j)))
  {
    hide Cong, Step, Power;
    var a, b := Power(c, i), Power(c, j);
    ScaledDouble(s, t, u, a, b);
    ScaledAdd(s, t, u, a, b);
    PowerSum(c, i, i); PowerSum(c, 2 * i, 2 * i);
    PowerSum(c, i, j); PowerSum(c, i + j, i + j);
  }

  lemma ScaledSwap(s: Points, t: Points, a: int, b: int)
    requires Scaled(s, t, a, b)
    ensures Scaled(Swapped(true, s), Swapped(true, t), b, a)
  {
    hide Cong;
  }

  // ---------------------------------------------------------------- the extra step

  /** The source starts one bit higher.  That bit is 0, and its step scales the second point. */
  lemma FirstStep(k: int, u: int)
    requires !Bit(k, 255)
    ensures Scaled(PlainLadder(k, u, 256, 1), PlainLadder(k, u, 255, 0), Power(4 * u, 0), Power(4 * u, 1))
  {
    hide Cong, Bit, Mod;
    var s := Step(u, Points(1, 0, u, 1));
    assert PlainLadder(k, u, 256, 0) == Points(1, 0, u, 1);
    assert PlainLadder(k, u, 256, 1) == s;
    hide Power;
    ZeroOne(4 * u);
    FirstProducts(u);
    assert s == Points(Mod(1), Mod(0), Mod((4 * u) * u), Mod((4 * u) * 1));
    ModCong(1); ModCong(0); ModCong((4 * u) * u); ModCong((4 * u) * 1);
  }

  lemma FirstProducts(u: int)
    ensures Step(u, Points(1, 0, u, 1)) == Points(Mod(1), Mod(0), Mod((4 * u) * u), Mod((4 * u) * 1))
  {
    hide Mod;
    var DA, CB := (u - 1) * 1, (u + 1) * 1;
    assert DA + CB == 2 * u && DA - CB == -2;
    Exchange(2, u, 2, u);
    MulAssoc(4, u, u);
    assert u * ((-2) * (-2)) == (4 * u) * 1;
  }

  lemma ZeroOne(c: int)
    ensures Power(c, 0) == 1 && Power(c, 1) == c
  {}

  /** After n more steps the source's state is the RFC's, scaled by powers of 4 u. */
  lemma {:induction false} ExtraStep(k: int, u: int, n: nat) returns (i: nat, j: nat)
    requires n <= 255 && !Bit(k, 255)
    ensures Scaled(PlainLadder(k, u, 256, n + 1), PlainLadder(k, u, 255, n), Power(4 * u, i), Power(4 * u, j))
    decreases n
  {
    if n == 0 {
      FirstStep(k, u);
      return 0, 1;
    }
    i, j := ExtraStep(k, u, n - 1);
    hide Cong, Step, Bit, Power, Scaled;
    var s, t, bit := PlainLadder(k, u, 256, n), PlainLadder(k, u, 255, n - 1), Bit(k, 255 - n);
    assert 256 - (n + 1) == 255 - n;
    if bit {
      ScaledSwap(s, t, Power(4 * u, i), Power(4 * u, j));
      ScaledStep(Swapped(true, s), Swapped(true, t), u, 4 * u, j, i);
      ScaledSwap(Step(u, Swapped(true, s)), Step(u, Swapped(true, t)), Power(4 * u, 4 * j), Power(4 * u, 2 * (j + i)));
      i, j := 2 * (j + i), 4 * j;
    } else {
      ScaledStep(s, t, u, 4 * u, i, j);
      i, j := 4 * i, 2 * (i + j);
    }
  }

  // ---------------------------------------------------------------- the quotient

  lemma {:induction false} PowerTimes(x: int, y: int, n: nat)
    ensures Power(x * y, n) == Power(x, n) * Power(y, n)
    decreases n
  {
    if n > 0 {
      PowerTimes(x, y, n - 1);
      Exchange(x, y, Power(x, n - 1), Power(y, n - 1));
      Exchange(x, Power(x, n - 1), y, Power(y, n - 1));
    }
  }

  /** The quotient of a point does not depend on its scale, if that is a power of a unit. */
  lemma ScaledQuotient(x: int, z: int, x': int, z': int, c: nat, i: nat)
    requires Cong(x, Power(c, i) * x', P) && Cong(z, Power(c, i) * z', P) && !Divides(P, c)
    ensures Cong(x * Power(z, P - 2), x' * Power(z', P - 2), P)
  {
    hide Cong, Power, Divides;
    var a := Power(c, i);
    PowerCong(z, a * z', P - 2, P);
    PowerTimes(a, z', P - 2);
    CongMul(x, a * x', Power(z, P - 2), Power(a, P - 2) * Power(z', P - 2), P);
    Exchange(a, x', Power(a, P - 2), Power(z', P - 2));
    var q := x' * Power(z', P - 2);
    assert a * Power(a, P - 2) == Power(a, P - 1) by { PowerNext(a, P - 2); }
    assert Cong(Power(a, P - 1), 1, P) by {
      PrimeP();
      Fermat(P, c);
      PowerProduct(c, i, P - 1);
      PowerMultiple(c, P - 1, i, P);
      assert i * (P - 1) == (P - 1) * i;
    }
    CongSame(q, P);
    CongMul(Power(a, P - 1), 1, q, q, P);
    CongTrans(x * Power(z, P - 2), Power(a, P - 1) * q, 1 * q, P);
  }

  lemma PowerNext(x: int, n: nat)
    ensures x * Power(x, n) == Power(x, n + 1)
  {}

  // ---------------------------------------------------------------- u = 0

  /** One coordinate of each point vanishes. */
  ghost predicate Vanishing(s: Points) {
    Divides(P, s.x2 * s.z2) && Divides(P, s.x3 * s.z3)
  }

  lemma VanishingStep(u: int, s: Points)
    requires Vanishing(s) && Divides(P, u)
    ensures Vanishing(Step(u, s))
  {
    hide Divides, Mod;
    var t := Step(u, s);
    var A, B := s.x2 + s.z2, s.x2 - s.z2;
    var AA, BB := A * A, B * B;
    var E := AA - BB;
    DifferenceOfSquares(s.x2, s.z2);
    DividesMul(P, s.x2 * s.z2, 4);
    DividesMul(P, E, AA + 121665 * E);
    DividesMod(E * (AA + 121665 * E));
    DividesMul(P, t.z2, t.x2);
    var C, D := s.x3 + s.z3, s.x3 - s.z3;
    var F := (D * A - C * B) * (D * A - C * B);
    DividesMul(P, u, F);
    DividesMod(u * F);
    DividesMul(P, t.z3, t.x3);
  }

  lemma DifferenceOfSquares(x: int, z: int)
    ensures (x + z) * (x + z) - (x - z) * (x - z) == (x * z) * 4
  {
    MulDistrib(x + z, x, z);
    MulDistrib(x - z, x, z);
    MulDistrib(x, x, z); MulDistrib(z, x, z);
  }

  lemma DividesMod(x: int)
    requires Divides(P, x)
    ensures Divides(P, Mod(x))
  {}

  lemma VanishingSwap(bit: bool, s: Points)
    requires Vanishing(s)
    ensures Vanishing(Swapped(bit, s))
  {}

  lemma VanishingStart(u: int)
    requires Divides(P, u)
    ensures Vanishing(Points(1, 0, u, 1))
  {
    DividesMul(P, u, 1);
    DividesFrom(P, 0, 0);
  }

  lemma FirstRung(k: int, u: int, top: nat)
    ensures PlainLadder(k, u, top, 0) == Points(1, 0, u, 1)
  {}

  lemma NextRung(k: int, u: int, top: nat, n: nat)
    requires n < top
    ensures var bit := Bit(k, top - n - 1);
            PlainLadder(k, u, top, n + 1) == Swapped(bit, Step(u, Swapped(bit, PlainLadder(k, u, top, n))))
  {}

  lemma VanishingQuotient(x: int, z: int)
    requires Divides(P, x * z)
    ensures Divides(P, x * Power(z, P - 2))
  {
    hide Divides, Power;
    PowerNext(z, P - 3);
    MulAssoc(x, z, Power(z, P - 3));
    DividesMul(P, x * z, Power(z, P - 3));
  }

  // ---------------------------------------------------------------- the theorem

  function Quotient(s: Points): int {
    Mod(s.x2 * Power(s.z2, P - 2))
  }

  /** 256 plain steps and the RFC's 255 give the same quotient. */
  lemma SameQuotient(k: int, u: nat)
    requires !Bit(k, 255)
    ensures Quotient(PlainLadder(k, u, 256, 256)) == Quotient(PlainLadder(k, u, 255, 255))
  {
    hide Bit, Power, Divides, PlainLadder, Mod;
    var s, t := PlainLadder(k, u, 256, 256), PlainLadder(k, u, 255, 255);
    if Divides(P, u) {
      forall top | 255 <= top <= 256 ensures Vanishing(PlainLadder(k, u, top, top)) {
        hide Step, Swapped, Vanishing;
        VanishingStart(u);
        assert Vanishing(PlainLadder(k, u, top, 0)) by { FirstRung(k, u, top); }
        for n := 0 to top
          invariant Vanishing(PlainLadder(k, u, top, n))
        {
          var bit, r := Bit(k, top - n - 1), PlainLadder(k, u, top, n);
          VanishingSwap(bit, r);
          VanishingStep(u, Swapped(bit, r));
          VanishingSwap(bit, Step(u, Swapped(bit, r)));
          NextRung(k, u, top, n);
        }
      }
      VanishingQuotient(s.x2, s.z2);
      VanishingQuotient(t.x2, t.z2);
      BothZero(s.x2 * Power(s.z2, P - 2), t.x2 * Power(t.z2, P - 2));
    } else {
      FourUnit(u);
      var i, j := ExtraStep(k, u, 255);
      ScaledQuotient(s.x2, s.z2, t.x2, t.z2, 4 * u, i);
      SameMod(s.x2 * Power(s.z2, P - 2), t.x2 * Power(t.z2, P - 2));
    }
  }

  lemma BothZero(x: int, y: int)
    requires Divides(P, x) && Divides(P, y)
    ensures Mod(x) == Mod(y)
  {}

  lemma SameMod(x: int, y: int)
    requires Cong(x, y, P)
    ensures Mod(x) == Mod(y)
  {}

  lemma FourUnit(u: nat)
    requires !Divides(P, u)
    ensures !Divides(P, 4 * u)
  {
    hide Divides;
    PrimeP();
    if Divides(P, 4 * u) {
      Euclid(P, 4, u);
      DividesLe(P, 4);
    }
  }

  /** The clamped scalar has its top bit clear. */
  lemma TopBitClear(secret: seq<Byte>)
    requires |secret| == 32
    ensures !Bit(DecodeScalar(secret), 255)
  {
    var e := Clamp(secret);
    ByteBit(e, 31, 7);
    TwoSeven();
  }

  lemma MainTheorem(secret: seq<Byte>, base: seq<Byte>)
    requires |secret| == |base| == 32
    ensures Quotient(PlainLadder(DecodeScalar(secret), DecodeU(base), 256, 256)) == X25519(secret, base)
  {
    hide LittleEndian, Power, PlainLadder, Ladder, Clamp, Bit, Mod;
    var k, u := DecodeScalar(secret), DecodeU(base);
    TopBitClear(secret);
    SameQuotient(k, u);
    DeferredSwap(k, u, 255);
  }

  /** Everything together: the public key or shared secret, byte for byte. */
  method Curve25519Donna(mypublic: array<Byte>, secret: array<Byte>, basepoint: array<Byte>)
    requires mypublic.Length == secret.Length == basepoint.Length == 32
    modifies mypublic
    ensures LittleEndian(mypublic[..]) == X25519(old(secret[..]), old(basepoint[..]))
  {
    hide Sum, Cong, Bounded, PlainLadder, LittleEndian, Power, X25519, Mod;
    var e := ClampedCopy(secret);
    var bp := new Limb[10];
    var x := new Limb[10];
    var z := new Limb[11];
    var zmone := new Limb[10];
    B.Fexpand(bp, basepoint);
    ghost var u := DecodeU(basepoint[..]);
    CongSame(u, P);
    Cmult(x, z, e, bp, u);
    ghost var s := PlainLadder(LittleEndian(e[..]), u, 256, 256);
    R.Crecip(zmone, z, s.z2);
    ghost var vx, vi := Sum(x[..], 10), Sum(zmone[..], 10);
    LooseBound(x[..]); LooseBound(zmone[..]);
    Fmul(z, x, zmone);
    CongMul(vx, s.x2, vi, Power(s.z2, P - 2), P);
    CongTrans(Sum(z[..], 10), vx * vi, s.x2 * Power(s.z2, P - 2), P);
    SameMod(Sum(z[..], 10), s.x2 * Power(s.z2, P - 2));
    MainTheorem(secret[..], basepoint[..]);
    C.Fcontract(mypublic, z);
  }

  lemma LooseBound(s: seq<int>)
    requires Bounded(s, 10, TWO26)
    ensures Bounded(s, 10, TWO27)
  {}

  method ClampedCopy(secret: array<Byte>) returns (e: array<Byte>)
    requires secret.Length == 32
    ensures fresh(e) && e.Length == 32 && e[..] == Clamp(secret[..])
  {
    e := new Byte[32];
    for i := 0 to 32
      invariant forall j :: 0 <= j < i ==> e[j] == secret[j]
    {
      e[i] := secret[i];
    }
    assert e[..] == secret[..];
    e[0] := e[0] - e[0] % 8;
    e[31] := e[31] % 128;
    e[31] := if e[31] < 64 then e[31] + 64 else e[31];
  }
}
