/** The Montgomery ladder step on limb arrays. */
module X25519Monty {
  import opened Arith
  import opened Rfc7748
  import opened X25519Field
  import opened X25519Reduce

  lemma {:induction false} SumLinear(s: seq<int>, t: seq<int>, r: seq<int>, n: nat, a: int, b: int)
    requires n <= |s| && n <= |t| && n <= |r| && forall k :: 0 <= k < n ==> r[k] == a * s[k] + b * t[k]
    ensures Sum(r, n) == a * Sum(s, n) + b * Sum(t, n)
  {
    hide Sum, Weight;
    SumNext(s, 0); SumNext(t, 0); SumNext(r, 0);
    if n > 0 {
      SumLinear(s, t, r, n - 1, a, b);
      SumNext(s, n - 1); SumNext(t, n - 1); SumNext(r, n - 1);
      LinearTerm(Weight(n - 1), a, s[n - 1], b, t[n - 1], Sum(s, n - 1), Sum(t, n - 1));
    }
  }

  lemma LinearTerm(w: int, a: int, x: int, b: int, y: int, sx: int, sy: int)
    ensures a * sx + b * sy + w * (a * x + b * y) == a * (sx + w * x) + b * (sy + w * y)
  {
    MulDistrib(w, a * x, b * y);
    MulAssoc(w, a, x); MulAssoc(a, w, x);
    MulAssoc(w, b, y); MulAssoc(b, w, y);
    MulDistrib(a, sx, w * x);
    MulDistrib(b, sy, w * y);
  }

  method Fsum(output: array<Limb>, x: array<Limb>)
    requires output != x && Bounded(output[..], 10, TWO26) && Bounded(x[..], 10, TWO26)
    modifies output
    ensures Sum(output[..], 10) == old(Sum(output[..], 10)) + Sum(x[..], 10) && Bounded(output[..], 10, TWO27)
  {
    hide Sum;
    ghost var s := output[..];
    var i := 0;
    while i < 10
      invariant 0 <= i <= 10 && i % 2 == 0
      invariant forall k :: 0 <= k < i ==> output[k] == s[k] as int + x[k] as int
      invariant forall k :: i <= k < 10 ==> output[k] == s[k]
    {
      assert s[i] == output[i] && s[i + 1] == output[i + 1] && x[..][i] == x[i] && x[..][i + 1] == x[i + 1];
      output[i] := output[i] + x[i];
      output[i + 1] := output[i + 1] + x[i + 1];
      i := i + 2;
    }
    SumLinear(s, x[..], output[..], 10, 1, 1);
  }

  /** output = x - output */
  method Fdifference(output: array<Limb>, x: array<Limb>)
    requires output != x && Bounded(output[..], 10, TWO26) && Bounded(x[..], 10, TWO26)
    modifies output
    ensures Sum(output[..], 10) == Sum(x[..], 10) - old(Sum(output[..], 10)) && Bounded(output[..], 10, TWO27)
  {
    hide Sum;
    ghost var s := output[..];
    var i := 0;
    while i < 10
      invariant 0 <= i <= 10
      invariant forall k :: 0 <= k < i ==> output[k] == x[k] as int - s[k] as int
      invariant forall k :: i <= k < 10 ==> output[k] == s[k]
    {
      assert s[i] == output[i] && x[..][i] == x[i];
      output[i] := x[i] - output[i];
      i := i + 1;
    }
    SumLinear(x[..], s, output[..], 10, 1, -1);
  }

  method FscalarProduct(output: array<Limb>, x: array<Limb>, scalar: Limb)
    requires output != x && output.Length >= 10 && Bounded(x[..], 10, TWO27) && 0 <= scalar < 0x20_0000
    modifies output
    ensures Sum(output[..], 10) == scalar * Sum(x[..], 10) && Bounded(output[..], 10, 280 * TWO54)
  {
    hide Sum;
    var i := 0;
    while i < 10
      invariant 0 <= i <= 10
      invariant forall k :: 0 <= k < i ==> output[k] == scalar * x[k] && -280 * TWO54 < output[k] < 280 * TWO54
    {
      assert x[..][i] == x[i];
      MulLe(scalar, x[i], TWO27); MulLe(scalar, -TWO27, x[i]);
      output[i] := x[i] * scalar;
      i := i + 1;
    }
    SumLinear(x[..], x[..], output[..], 10, scalar, 0);
  }

  /** x, z := x + z, x - z, through a copy of x. */
  method SumAndDifference(x: array<Limb>, z: array<Limb>)
    requires x != z && Bounded(x[..], 10, TWO26) && Bounded(z[..], 10, TWO26)
    modifies x, z
    ensures Sum(x[..], 10) == old(Sum(x[..], 10) + Sum(z[..], 10)) && Bounded(x[..], 10, TWO27)
    ensures Sum(z[..], 10) == old(Sum(x[..], 10) - Sum(z[..], 10)) && Bounded(z[..], 10, TWO27)
  {
    hide Sum, Bounded;
    var orig := new Limb[10];
    assert x.Length >= 10 by { Sized(x[..], TWO26); }
    Copy10(orig, x);
    Fsum(x, z);
    Fdifference(z, orig);
  }

  lemma Sized(s: seq<int>, b: int)
    requires Bounded(s, 10, b)
    ensures |s| >= 10
  {}

  /** fproduct, freduce_degree, freduce_coefficients. */
  method Multiply(output: array<Limb>, x: array<Limb>, y: array<Limb>)
    requires output.Length == 19 && output != x && output != y
    requires Bounded(x[..], 10, TWO27) && Bounded(y[..], 10, TWO27)
    modifies output
    ensures Is(output[..], Sum(x[..], 10) * Sum(y[..], 10)) && Bounded(output[..], 10, TWO26)
  {
    hide Sum, Cong;
    Fproduct(output, x, y);
    ghost var v := Sum(output[..], 19);
    FreduceDegree(output);
    ghost var w := Sum(output[..], 10);
    FreduceCoefficients(output);
    CongTrans(Sum(output[..], 10), w, v, P);
  }

  lemma Looser(s: seq<int>)
    requires Bounded(s, 10, TWO26)
    ensures Bounded(s, 10, TWO27)
  {}

  // ---------------------------------------------------------------- one step of the ladder

  lemma SquareCong(x: int, y: int, v: int, m: int)
    requires m > 0 && Cong(x, y, m) && Cong(v, x * x, m)
    ensures Cong(v, y * y, m)
  {
    hide Cong;
    CongMul(x, y, x, y, m);
    CongTrans(v, x * x, y * y, m);
  }

  lemma AddCong(da: int, cb: int, u: int, xx: int, zz: int, sq: int, zsq: int, r: int, m: int)
    requires m > 0 && Cong(xx, cb, m) && Cong(zz, da, m)
    requires Cong(sq, (xx + zz) * (xx + zz), m) && Cong(zsq, (xx - zz) * (xx - zz), m) && Cong(r, zsq * u, m)
    ensures Cong(sq, (da + cb) * (da + cb), m)
    ensures Cong(r, u * ((da - cb) * (da - cb)), m)
  {
    hide Cong;
    CongAdd(xx, cb, zz, da, m);
    SquareCong(xx + zz, da + cb, sq, m);
    SquareCong(xx - zz, cb - da, zsq, m);
    SquareSign(cb, da);
    CongSame(u, m);
    var v := (da - cb) * (da - cb);
    CongMul(zsq, v, u, u, m);
    CongTrans(r, zsq * u, v * u, m);
  }

  lemma SquareSign(x: int, y: int)
    ensures (x - y) * (x - y) == (y - x) * (y - x)
  {}

  /** The difference addition: with A, B, C, D in x, z, xprime, zprime. */
  method DifferenceAdd(x3: array<Limb>, z3: array<Limb>, x: array<Limb>, z: array<Limb>,
                       xprime: array<Limb>, zprime: array<Limb>, qmqp: array<Limb>)
    requires x3.Length == z3.Length == 19 && x3 != z3 && {x3, z3} !! {x, z, xprime, zprime, qmqp}
    requires Bounded(x[..], 10, TWO27) && Bounded(z[..], 10, TWO27)
    requires Bounded(xprime[..], 10, TWO27) && Bounded(zprime[..], 10, TWO27) && Bounded(qmqp[..], 10, TWO26)
    modifies x3, z3
    ensures var a, b, c, d := Sum(x[..], 10), Sum(z[..], 10), Sum(xprime[..], 10), Sum(zprime[..], 10);
            Is(x3[..], (d * a + c * b) * (d * a + c * b)) &&
            Is(z3[..], Sum(qmqp[..], 10) * ((d * a - c * b) * (d * a - c * b)))
    ensures Bounded(x3[..], 10, TWO26) && Bounded(z3[..], 10, TWO26)
  {
    hide Sum, Cong, Bounded;
    Sized(x[..], TWO27); Sized(z[..], TWO27); Sized(xprime[..], TWO27); Sized(zprime[..], TWO27); Sized(qmqp[..],
          TWO26);
    ghost var da, cb, u := Sum(zprime[..], 10) * Sum(x[..], 10), Sum(xprime[..], 10) * Sum(z[..], 10), Sum(qmqp[..],
                               10);
    var xxprime := new Limb[19];
    var zzprime := new Limb[19];
    var xxxprime := new Limb[19];
    var zzzprime := new Limb[19];
    Multiply(xxprime, xprime, z);
    Multiply(zzprime, x, zprime);
    ghost var xx, zz := Sum(xxprime[..], 10), Sum(zzprime[..], 10);
    SumAndDifference(xxprime, zzprime);
    Fsquare(xxxprime, xxprime);
    Fsquare(zzzprime, zzprime);
    ghost var sq, zsq := Sum(xxxprime[..], 10), Sum(zzzprime[..], 10);
    Looser(zzzprime[..]); Looser(qmqp[..]);
    Multiply(zzprime, zzzprime, qmqp);
    ghost var r := Sum(zzprime[..], 10);
    Copy10(x3, xxxprime);
    Copy10(z3, zzprime);
    AddCong(da, cb, u, xx, zz, sq, zsq, r, P);
  }

  lemma ProductCong(aa: int, bb: int, xx: int, zz: int, x2: int, m: int)
    requires m > 0 && Cong(xx, aa, m) && Cong(zz, bb, m) && Cong(x2, xx * zz, m)
    ensures Cong(x2, aa * bb, m)
  {
    hide Cong;
    CongMul(xx, aa, zz, bb, m);
    CongTrans(x2, xx * zz, aa * bb, m);
  }

  lemma ScaledCong(e: int, aa: int, d: int, xx: int, zzz: int)
    requires Cong(d, e, P) && Cong(xx, aa, P) && Cong(zzz, 121665 * d, P)
    ensures Cong(zzz + xx, 121665 * e + aa, P)
  {
    hide Cong;
    CongSame(121665, P);
    CongMul(121665, 121665, d, e, P);
    CongTrans(zzz, 121665 * d, 121665 * e, P);
    CongAdd(zzz, 121665 * e, xx, aa, P);
  }

  /** The doubling: with A, B in x, z. */
  method Double(x2: array<Limb>, z2: array<Limb>, x: array<Limb>, z: array<Limb>)
    requires x2.Length == z2.Length == 19 && x2 != z2 && {x2, z2} !! {x, z}
    requires Bounded(x[..], 10, TWO27) && Bounded(z[..], 10, TWO27)
    modifies x2, z2
    ensures var aa, bb := Sum(x[..], 10) * Sum(x[..], 10), Sum(z[..], 10) * Sum(z[..], 10);
            Is(x2[..], aa * bb) && Is(z2[..], (aa - bb) * (aa + 121665 * (aa - bb)))
    ensures Bounded(x2[..], 10, TWO26) && Bounded(z2[..], 10, TWO26)
  {
    hide Sum, Cong, Bounded;
    Sized(x[..], TWO27); Sized(z[..], TWO27);
    var xx := new Limb[19];
    var zz := new Limb[19];
    var zzz := new Limb[19];
    Fsquare(xx, x);
    Fsquare(zz, z);
    ghost var aa, bb := Sum(xx[..], 10), Sum(zz[..], 10);
    Looser(xx[..]); Looser(zz[..]);
    Multiply(x2, xx, zz);
    ghost var r2 := Sum(x2[..], 10);
    Fdifference(zz, xx);
    FscalarProduct(zzz, zz, 121665);
    FreduceCoefficients(zzz);
    ghost var e := Sum(zzz[..], 10);
    Fsum(zzz, xx);
    Multiply(z2, zz, zzz);
    ghost var a, b := Sum(x[..], 10) * Sum(x[..], 10), Sum(z[..], 10) * Sum(z[..], 10);
    ProductCong(a, b, aa, bb, r2, P);
    CongAdd(aa, a, bb, b, P);
    ScaledCong(a - b, a, aa - bb, aa, e);
    ProductCong(a - b, 121665 * (a - b) + a, aa - bb, e + aa, Sum(z2[..], 10), P);
  }

  /** The four arrays stand for a point pair, up to multiples of P, in reduced form. */
  ghost predicate Holds(x2: seq<int>, z2: seq<int>, x3: seq<int>, z3: seq<int>, s: Points) {
    && Is(x2, s.x2) && Is(z2, s.z2) && Is(x3, s.x3) && Is(z3, s.z3)
    && Bounded(x2, 10, TWO26) && Bounded(z2, 10, TWO26) && Bounded(x3, 10, TWO26) && Bounded(z3, 10, TWO26)
  }

  /** Congruent arguments give congruent coordinates. */
  lemma StepCong(u: int, s: Points, u': int, x2: int, z2: int, x3: int, z3: int)
    requires Cong(u', u, P) && Cong(x2, s.x2, P) && Cong(z2, s.z2, P) && Cong(x3, s.x3, P) && Cong(z3, s.z3, P)
    ensures var a, b, c, d, t := x2 + z2, x2 - z2, x3 + z3, x3 - z3, Step(u, s);
            Cong((a * a) * (b * b), t.x2, P)
            && Cong((a * a - b * b) * (a * a + 121665 * (a * a - b * b)), t.z2, P)
            && Cong((d * a + c * b) * (d * a + c * b), t.x3, P)
            && Cong(u' * ((d * a - c * b) * (d * a - c * b)), t.z3, P)
  {
    hide Cong, Mod;
    var a, b, c, d := x2 + z2, x2 - z2, x3 + z3, x3 - z3;
    var A, B, C, D := s.x2 + s.z2, s.x2 - s.z2, s.x3 + s.z3, s.x3 - s.z3;
    CongAdd(x2, s.x2, z2, s.z2, P); CongAdd(x3, s.x3, z3, s.z3, P);
    CongMul(a, A, a, A, P); CongMul(b, B, b, B, P);
    CongMul(d, D, a, A, P); CongMul(c, C, b, B, P);
    var aa, bb, da, cb := a * a, b * b, d * a, c * b;
    var AA, BB, DA, CB := A * A, B * B, D * A, C * B;
    CongMul(aa, AA, bb, BB, P);
    CongToMod(aa * bb, AA * BB);
    CongAdd(aa, AA, bb, BB, P);
    CongSame(121665, P);
    CongMul(121665, 121665, aa - bb, AA - BB, P);
    CongAdd(aa, AA, 121665 * (aa - bb), 121665 * (AA - BB), P);
    CongMul(aa - bb, AA - BB, aa + 121665 * (aa - bb), AA + 121665 * (AA - BB), P);
    CongToMod((aa - bb) * (aa + 121665 * (aa - bb)), (AA - BB) * (AA + 121665 * (AA - BB)));
    CongAdd(da, DA, cb, CB, P);
    CongMul(da + cb, DA + CB, da + cb, DA + CB, P);
    CongToMod((da + cb) * (da + cb), (DA + CB) * (DA + CB));
    CongMul(da - cb, DA - CB, da - cb, DA - CB, P);
    CongMul(u', u, (da - cb) * (da - cb), (DA - CB) * (DA - CB), P);
    CongToMod(u' * ((da - cb) * (da - cb)), u * ((DA - CB) * (DA - CB)));
  }

  lemma CongToMod(x: int, y: int)
    requires Cong(x, y, P)
    ensures Cong(x, Mod(y), P)
  {
    hide Cong;
    CongMod(y, P);
    CongSymmetric(Mod(y), y, P);
    CongTrans(x, y, Mod(y), P);
  }

  /** A step of the ladder refines the RFC's, and keeps every limb below 2^26. */
  method Fmonty(x2: array<Limb>, z2: array<Limb>, x3: array<Limb>, z3: array<Limb>,
                x: array<Limb>, z: array<Limb>, xprime: array<Limb>, zprime: array<Limb>, qmqp: array<Limb>,
                ghost u: int, ghost s: Points)
    requires x2.Length == z2.Length == x3.Length == z3.Length == 19
    requires x2 != z2 && x3 != z3 && {x2, z2} !! {x3, z3} && {x2, z2, x3, z3} !! {x, z, xprime, zprime, qmqp}
    requires x != z && xprime != zprime && {x, z} !! {xprime, zprime} && qmqp !in {x, z, xprime, zprime}
    requires Holds(x[..], z[..], xprime[..], zprime[..], s) && Is(qmqp[..], u) && Bounded(qmqp[..], 10, TWO26)
    modifies x2, z2, x3, z3, x, z, xprime, zprime
    ensures Holds(x2[..], z2[..], x3[..], z3[..], Step(u, s))
  {
    hide Sum, Cong, Bounded, Step;
    StepCong(u, s, Sum(qmqp[..], 10), Sum(x[..], 10), Sum(z[..], 10), Sum(xprime[..], 10), Sum(zprime[..], 10));
    SumAndDifference(x, z);
    SumAndDifference(xprime, zprime);
    DifferenceAdd(x3, z3, x, z, xprime, zprime, qmqp);
    Double(x2, z2, x, z);
    ghost var t := Step(u, s);
    ghost var a, b, c, d := Sum(x[..], 10), Sum(z[..], 10), Sum(xprime[..], 10), Sum(zprime[..], 10);
    CongTrans(Sum(x2[..], 10), (a * a) * (b * b), t.x2, P);
    CongTrans(Sum(z2[..], 10), (a * a - b * b) * (a * a + 121665 * (a * a - b * b)), t.z2, P);
    CongTrans(Sum(x3[..], 10), (d * a + c * b) * (d * a + c * b), t.x3, P);
    CongTrans(Sum(z3[..], 10), Sum(qmqp[..], 10) * ((d * a - c * b) * (d * a - c * b)), t.z3, P);
  }
}
