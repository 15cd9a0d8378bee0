/** Field arithmetic on limb arrays: every result is exact modulo 2^255 - 19. */
module X25519Reduce {
  import opened Arith
  import opened Rfc7748
  import opened X25519Field

  /** The field value of ten limbs, up to multiples of P. */
  ghost predicate Is(s: seq<int>, v: int) {
    |s| >= 10 && Cong(Sum(s, 10), v, P)
  }

  // ---------------------------------------------------------------- products

  twostate predicate Rest(a: array<Limb>, lo: nat, hi: nat)
    reads a
  {
    forall k :: 0 <= k < a.Length && !(lo <= k <= hi) ==> a[k] == old(a[k])
  }

  method ProductLowerColumns(output: array<Limb>, x: seq<Limb>, y: seq<Limb>)
    requires output.Length == 19 && Bounded(x, 10, TWO27) && Bounded(y, 10, TWO27)
    modifies output
    ensures (forall k :: 0 <= k <= 6 ==> output[k] == ProductLower(x, y, k)) && Rest(output, 0, 6)
  {
    hide Bounded, ProductLower;
    output[0] := ProductLower(x, y, 0);
    output[1] := ProductLower(x, y, 1);
    output[2] := ProductLower(x, y, 2);
    output[3] := ProductLower(x, y, 3);
    output[4] := ProductLower(x, y, 4);
    output[5] := ProductLower(x, y, 5);
    output[6] := ProductLower(x, y, 6);
  }

  method ProductMiddleColumns(output: array<Limb>, x: seq<Limb>, y: seq<Limb>)
    requires output.Length == 19 && Bounded(x, 10, TWO27) && Bounded(y, 10, TWO27)
    modifies output
    ensures (forall k :: 7 <= k <= 9 ==> output[k] == ProductMiddle(x, y, k)) && Rest(output, 7, 9)
  {
    hide Bounded, ProductMiddle;
    output[7] := ProductMiddle(x, y, 7);
    output[8] := ProductMiddle(x, y, 8);
    output[9] := ProductMiddle(x, y, 9);
  }

  method ProductUpperColumns(output: array<Limb>, x: seq<Limb>, y: seq<Limb>)
    requires output.Length == 19 && Bounded(x, 10, TWO27) && Bounded(y, 10, TWO27)
    modifies output
    ensures (forall k :: 10 <= k <= 18 ==> output[k] == ProductUpper(x, y, k)) && Rest(output, 10, 18)
  {
    hide Bounded, ProductUpper;
    output[10] := ProductUpper(x, y, 10);
    output[11] := ProductUpper(x, y, 11);
    output[12] := ProductUpper(x, y, 12);
    output[13] := ProductUpper(x, y, 13);
    output[14] := ProductUpper(x, y, 14);
    output[15] := ProductUpper(x, y, 15);
    output[16] := ProductUpper(x, y, 16);
    output[17] := ProductUpper(x, y, 17);
    output[18] := ProductUpper(x, y, 18);
  }

  method Fproduct(output: array<Limb>, x: array<Limb>, y: array<Limb>)
    requires output.Length == 19 && output != x && output != y
    requires Bounded(x[..], 10, TWO27) && Bounded(y[..], 10, TWO27)
    modifies output
    ensures Sum(output[..], 19) == Sum(x[..], 10) * Sum(y[..], 10)
    ensures Bounded(output[..], 19, 14 * TWO54)
  {
    hide Sum, Column, ProductLower, ProductMiddle, ProductUpper, Bounded;
    ProductLowerColumns(output, x[..], y[..]);
    ProductMiddleColumns(output, x[..], y[..]);
    ProductUpperColumns(output, x[..], y[..]);
    ProductColumns(x[..], y[..], output[..]);
  }

  lemma ProductColumns(x: seq<Limb>, y: seq<Limb>, s: seq<Limb>)
    requires Bounded(x, 10, TWO27) && Bounded(y, 10, TWO27) && |s| == 19
    requires forall k :: 0 <= k <= 6 ==> s[k] == ProductLower(x, y, k)
    requires forall k :: 7 <= k <= 9 ==> s[k] == ProductMiddle(x, y, k)
    requires forall k :: 10 <= k < 19 ==> s[k] == ProductUpper(x, y, k)
    ensures Sum(s, 19) == Sum(x, 10) * Sum(y, 10) && Bounded(s, 19, 14 * TWO54)
  {
    hide Sum, Column, ProductLower, ProductMiddle, ProductUpper;
    forall k | 0 <= k < 19 ensures s[k] == Column(x, y, k, 0) {
      if k <= 6 { ProductLowerIs(x, y, k); }
      else if k <= 9 { ProductMiddleIs(x, y, k); }
      else { ProductUpperIs(x, y, k); }
    }
    ProductValue(x, y, s);
  }

  method SquareLowerColumns(output: array<Limb>, x: seq<Limb>)
    requires output.Length == 19 && Bounded(x, 10, TWO27)
    modifies output
    ensures (forall k :: 0 <= k <= 6 ==> output[k] == SquareLower(x, k)) && Rest(output, 0, 6)
  {
    hide Bounded, SquareLower;
    output[0] := SquareLower(x, 0);
    output[1] := SquareLower(x, 1);
    output[2] := SquareLower(x, 2);
    output[3] := SquareLower(x, 3);
    output[4] := SquareLower(x, 4);
    output[5] := SquareLower(x, 5);
    output[6] := SquareLower(x, 6);
  }

  method SquareMiddleColumns(output: array<Limb>, x: seq<Limb>)
    requires output.Length == 19 && Bounded(x, 10, TWO27)
    modifies output
    ensures (forall k :: 7 <= k <= 9 ==> output[k] == SquareMiddle(x, k)) && Rest(output, 7, 9)
  {
    hide Bounded, SquareMiddle;
    output[7] := SquareMiddle(x, 7);
    output[8] := SquareMiddle(x, 8);
    output[9] := SquareMiddle(x, 9);
  }

  method SquareUpperColumns(output: array<Limb>, x: seq<Limb>)
    requires output.Length == 19 && Bounded(x, 10, TWO27)
    modifies output
    ensures (forall k :: 10 <= k <= 18 ==> output[k] == SquareUpper(x, k)) && Rest(output, 10, 18)
  {
    hide Bounded, SquareUpper;
    output[10] := SquareUpper(x, 10);
    output[11] := SquareUpper(x, 11);
    output[12] := SquareUpper(x, 12);
    output[13] := SquareUpper(x, 13);
    output[14] := SquareUpper(x, 14);
    output[15] := SquareUpper(x, 15);
    output[16] := SquareUpper(x, 16);
    output[17] := SquareUpper(x, 17);
    output[18] := SquareUpper(x, 18);
  }

  method FsquareInner(output: array<Limb>, x: array<Limb>)
    requires output.Length == 19 && output != x && Bounded(x[..], 10, TWO27)
    modifies output
    ensures Sum(output[..], 19) == Sum(x[..], 10) * Sum(x[..], 10)
    ensures Bounded(output[..], 19, 14 * TWO54)
  {
    hide Sum, SquareLower, SquareMiddle, SquareUpper, Bounded;
    SquareLowerColumns(output, x[..]);
    SquareMiddleColumns(output, x[..]);
    SquareUpperColumns(output, x[..]);
    SquareColumns(x[..], output[..]);
  }

  lemma SquareColumns(x: seq<Limb>, s: seq<Limb>)
    requires Bounded(x, 10, TWO27) && |s| == 19
    requires forall k :: 0 <= k <= 6 ==> s[k] == SquareLower(x, k)
    requires forall k :: 7 <= k <= 9 ==> s[k] == SquareMiddle(x, k)
    requires forall k :: 10 <= k < 19 ==> s[k] == SquareUpper(x, k)
    ensures Sum(s, 19) == Sum(x, 10) * Sum(x, 10) && Bounded(s, 19, 14 * TWO54)
  {
    hide *;
    SquareLowerIs(x); SquareMiddleIs(x); SquareUpperIs(x);
    ProductColumns(x, x, s);
  }

  // ---------------------------------------------------------------- degree

  /** Limbs k to 8 have taken in nineteen times the limbs ten above them. */
  ghost predicate Folded(s: seq<int>, t: seq<int>, k: nat) {
    && Bounded(s, 19, 14 * TWO54) && |s| == |t| == 19
    && (forall j :: k <= j < 9 ==> t[j] == s[j] + 19 * s[10 + j])
    && (forall j :: 0 <= j < 19 && !(k <= j < 9) ==> t[j] == s[j])
  }

  /** An upper limb is added to the one ten places below, nineteen times in all, by two shifts and an addition. */
  method Fold(output: array<Limb>, k: nat, ghost s: seq<Limb>)
    requires output.Length == 19 && k < 9 && Folded(s, output[..], k + 1)
    modifies output
    ensures Folded(s, output[..], k)
  {
    assert output[k] == s[k] && output[10 + k] == s[10 + k];
    var shifted: Limb := output[10 + k] * 16;
    output[k] := output[k] + shifted;
    shifted := output[10 + k] * 2;
    output[k] := output[k] + shifted;
    output[k] := output[k] + output[10 + k];
  }

  method FreduceDegree(output: array<Limb>)
    requires output.Length == 19 && Bounded(output[..], 19, 14 * TWO54)
    modifies output
    ensures Cong(Sum(output[..], 10), old(Sum(output[..], 19)), P)
    ensures Bounded(output[..], 10, 280 * TWO54)
  {
    ghost var s := output[..];
    assert Folded(s, output[..], 9);
    hide *;
    Fold(output, 8, s);
    Fold(output, 7, s);
    Fold(output, 6, s);
    Fold(output, 5, s);
    Fold(output, 4, s);
    Fold(output, 3, s);
    Fold(output, 2, s);
    Fold(output, 1, s);
    Fold(output, 0, s);
    FoldAll(s, output[..]);
  }

  lemma {:induction false} FoldSum(s: seq<int>, t: seq<int>, n: nat)
    requires |s| == |t| == 19 && n <= 9 && forall k :: 0 <= k < n ==> t[k] == s[k] + 19 * s[10 + k]
    ensures Sum(t, n) == Sum(s, n) + 19 * Sum(s[10..], n)
  {
    hide Sum, Weight;
    SumNext(s, 0); SumNext(t, 0); SumNext(s[10..], 0);
    if n > 0 {
      FoldSum(s, t, n - 1);
      SumNext(s, n - 1); SumNext(t, n - 1); SumNext(s[10..], n - 1);
      var w := Weight(n - 1);
      assert s[10..][n - 1] == s[10 + (n - 1)];
      MulDistrib(w, s[n - 1], 19 * s[10 + (n - 1)]);
      MulAssoc(w, 19, s[10 + (n - 1)]);
    }
  }

  lemma FoldAll(s: seq<int>, t: seq<int>)
    requires Folded(s, t, 0)
    ensures |s| == |t| == 19 && Cong(Sum(t, 10), Sum(s, 19), P) && Bounded(t, 10, 280 * TWO54)
  {
    hide Sum, Cong, Weight;
    forall j | 0 <= j < 10 ensures -280 * TWO54 < t[j] < 280 * TWO54 {
      if j < 9 { assert t[j] == s[j] + 19 * s[10 + j]; } else { assert t[j] == s[j]; }
    }
    FoldSum(s, t, 9);
    SumNext(s, 9); SumNext(t, 9);
    SumHigh(s, 9);
    CongFrom(Sum(t, 10), Sum(s, 19), -Sum(s[10..], 9), P);
  }

  // ---------------------------------------------------------------- coefficients

  /** Division by 2^26 that rounds towards zero, from the sign bit of the high word. */
  function DivBy226(v: Limb): (r: Limb)
    ensures if v >= 0 then 0 <= v - TWO26 * r < TWO26 else -TWO26 < v - TWO26 * r <= 0
  {
    var highword := (v % 0x1_0000_0000_0000_0000) / 0x1_0000_0000;
    var sign := if highword >= 0x8000_0000 then -1 else 0;
    var roundoff := (sign % 0x1_0000_0000) / 64;
    (v + roundoff) / TWO26
  }

  function DivBy225(v: Limb): (r: Limb)
    ensures if v >= 0 then 0 <= v - TWO25 * r < TWO25 else -TWO25 < v - TWO25 * r <= 0
  {
    var highword := (v % 0x1_0000_0000_0000_0000) / 0x1_0000_0000;
    var sign := if highword >= 0x8000_0000 then -1 else 0;
    var roundoff := (sign % 0x1_0000_0000) / 128;
    (v + roundoff) / TWO25
  }

  /** Limbs below i are reduced, limb i holds a carry on top of its entry bound. */
  ghost predicate Carrying(s: seq<int>, i: nat) {
    && |s| >= 11 && i <= 10
    && (forall j :: 0 <= j < i ==> -Radix(j) < s[j] < Radix(j))
    && (i < 10 ==> -281 * TWO54 < s[i] < 281 * TWO54 && s[10] == 0)
    && (forall j :: i < j < 10 ==> -280 * TWO54 < s[j] < 280 * TWO54)
    && (i == 10 ==> -281 * 0x2000_0000 < s[10] < 281 * 0x2000_0000)
  }

  /** One carry from limb i to limb i + 1. */
  lemma CarryStep(s: seq<int>, i: nat, over: int)
    requires Carrying(s, i) && i < 10
    requires if s[i] >= 0 then 0 <= s[i] - Radix(i) * over < Radix(i) else -Radix(i) < s[i] - Radix(i) * over <= 0
    ensures Carrying(s[i := s[i] - Radix(i) * over][i + 1 := s[i + 1] + over], i + 1)
    ensures -281 * TWO54 < s[i + 1] + over < 281 * TWO54
    ensures Sum(s[i := s[i] - Radix(i) * over][i + 1 := s[i + 1] + over], 11) == Sum(s, 11)
  {
    assert Sum(s[i := s[i] - Radix(i) * over][i + 1 := s[i + 1] + over], 11) == Sum(s, 11) by {
      SumMove(s, 11, i, -over);
    }
  }

  /** One carry: the rounded quotient of a limb moves on to the next limb. */
  method Carry(output: array<Limb>, i: nat, over: Limb, ghost total: int)
    requires Carrying(output[..], i) && i < 10 && Sum(output[..], 11) == total
    requires var v := output[i] as int; if v >= 0 then 0 <= v - Radix(i) * over < Radix(i) else -Radix(i) < v - Radix(i) * over <= 0
    modifies output
    ensures Carrying(output[..], i + 1) && Sum(output[..], 11) == total
  {
    hide Sum;
    ghost var s := output[..];
    assert s[i] == output[i];
    CarryStep(s, i, over);
    var shifted: Limb := over * Radix(i);
    output[i] := output[i] - shifted;
    output[i + 1] := output[i + 1] + over;
    assert output[..] == s[i := s[i] - Radix(i) * over][i + 1 := s[i + 1] + over];
  }

  method FreduceCoefficients(output: array<Limb>)
    requires output.Length >= 11 && Bounded(output[..], 10, 280 * TWO54)
    modifies output
    ensures Cong(Sum(output[..], 10), old(Sum(output[..], 10)), P)
    ensures Bounded(output[..], 10, TWO26)
  {
    hide Sum, Cong, Weight, Carrying;
    ghost var total := Sum(output[..], 10);
    ghost var s0 := output[..];
    output[10] := 0;
    CarryStart(s0, output[..]);
    var i := 0;
    while i < 10
      invariant 0 <= i <= 10 && i % 2 == 0 && output.Length >= 11
      invariant Carrying(output[..], i) && Sum(output[..], 11) == total
    {
      var over := DivBy226(output[i]);
      Carry(output, i, over, total);
      over := DivBy225(output[i + 1]);
      Carry(output, i + 1, over, total);
      i := i + 2;
    }
    LastFold(output, total);
    LastCarry(output);
  }

  lemma CarryStart(s0: seq<int>, s: seq<int>)
    requires |s| == |s0| >= 11 && s == s0[10 := 0] && Bounded(s0, 10, 280 * TWO54)
    ensures Carrying(s, 0) && Sum(s, 11) == Sum(s0, 10)
  {
    hide Sum, Weight;
    SumNext(s, 10);
    SumSame(s, s0, 10);
  }

  /** Limb 10 comes back to limb 0 nineteen times, in three additions. */
  method LastFold(output: array<Limb>, ghost total: int)
    requires Carrying(output[..], 10) && Sum(output[..], 11) == total
    modifies output
    ensures Bounded(output[..], 10, 19 * 281 * 0x2000_0000 + TWO26) && Cong(Sum(output[..], 10), total, P)
    ensures forall j :: 1 <= j < 10 ==> -Radix(j) < output[..][j] < Radix(j)
  {
    hide Sum, Cong, Weight;
    ghost var s := output[..];
    var shifted: Limb := output[10] * 16;
    output[0] := output[0] + shifted;
    shifted := output[10] * 2;
    output[0] := output[0] + shifted;
    output[0] := output[0] + output[10];
    output[10] := 0;
    ghost var t := s[0 := s[0] + 19 * s[10]];
    SumUpdate(s, 10, 0, 19 * s[10]);
    SumSame(t, output[..], 10);
    SumNext(s, 10);
    TopWeight();
    CongFrom(Sum(output[..], 10), total, -s[10], P);
  }

  lemma TopWeight()
    ensures Weight(0) == 1 && Weight(10) == TWO255
  {
    Weights();
  }

  method LastCarry(output: array<Limb>)
    requires output.Length >= 11 && Bounded(output[..], 10, 19 * 281 * 0x2000_0000 + TWO26)
    requires forall j :: 1 <= j < 10 ==> -Radix(j) < output[..][j] < Radix(j)
    modifies output
    ensures Sum(output[..], 10) == old(Sum(output[..], 10)) && Bounded(output[..], 10, TWO26)
  {
    hide Sum, Weight;
    ghost var s := output[..];
    assert -19 * 281 * 0x2000_0000 - TWO26 < s[0] < 19 * 281 * 0x2000_0000 + TWO26;
    var over := DivBy226(output[0]);
    var shifted: Limb := over * TWO26;
    assert -TWO25 < s[1] < TWO25;
    output[0] := output[0] - shifted;
    output[1] := output[1] + over;
    SumMove(s, 10, 0, -over);
    assert output[..] == s[0 := s[0] + Radix(0) * (-over)][0 + 1 := s[0 + 1] - (-over)];
  }

  // ---------------------------------------------------------------- field operations

  method Fmul(output: array<Limb>, x: array<Limb>, y: array<Limb>)
    requires output.Length >= 10 && Bounded(x[..], 10, TWO27) && Bounded(y[..], 10, TWO27)
    modifies output
    ensures Is(output[..], old(Sum(x[..], 10) * Sum(y[..], 10))) && Bounded(output[..], 10, TWO26)
  {
    hide Sum, Cong;
    var t := new Limb[19];
    Fproduct(t, x, y);
    ghost var v := Sum(t[..], 19);
    FreduceDegree(t);
    ghost var w := Sum(t[..], 10);
    FreduceCoefficients(t);
    CongTrans(Sum(t[..], 10), w, v, P);
    Copy10(output, t);
  }

  method Copy10(output: array<Limb>, t: array<Limb>)
    requires output.Length >= 10 && t.Length >= 10 && output != t
    modifies output
    ensures output[..10] == t[..10] && Sum(output[..], 10) == Sum(t[..], 10)
    ensures forall b :: Bounded(t[..], 10, b) ==> Bounded(output[..], 10, b)
  {
    hide Sum;
    for i := 0 to 10
      invariant forall j :: 0 <= j < i ==> output[j] == t[j]
    {
      output[i] := t[i];
    }
    assert output[..][..10] == output[..10] == t[..10] == t[..][..10];
    SumSame(output[..], t[..], 10);
  }

  method Fsquare(output: array<Limb>, x: array<Limb>)
    requires output.Length >= 10 && Bounded(x[..], 10, TWO27)
    modifies output
    ensures Is(output[..], old(Sum(x[..], 10) * Sum(x[..], 10))) && Bounded(output[..], 10, TWO26)
  {
    hide Sum, Cong;
    var t := new Limb[19];
    FsquareInner(t, x);
    ghost var v := Sum(t[..], 19);
    FreduceDegree(t);
    ghost var w := Sum(t[..], 10);
    FreduceCoefficients(t);
    CongTrans(Sum(t[..], 10), w, v, P);
    Copy10(output, t);
  }
}
