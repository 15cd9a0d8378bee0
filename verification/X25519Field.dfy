/** Field elements of the integers modulo 2^255 - 19 as signed limbs of 26 and 25 bits. */
module X25519Field {
  import opened Arith
  import opened Rfc7748

  /** The source's `limb`. */
  type Limb = x: int | -0x8000_0000_0000_0000 <= x < 0x8000_0000_0000_0000

  /** 64-bit signed arithmetic in which every operation is shown not to overflow. */
  newtype Int64 = x: int | -0x8000_0000_0000_0000 <= x < 0x8000_0000_0000_0000

  const TWO25: int := 0x200_0000
  const TWO26: int := 0x400_0000
  const TWO27: int := 0x800_0000
  const TWO54: int := 0x40_0000_0000_0000

  // ---------------------------------------------------------------- the value of limbs

  /** The size of limb i: 26 bits for even, 25 bits for odd. */
  function Radix(i: nat): int {
    if i % 2 == 0 then TWO26 else TWO25
  }

  /** 2 to the position of limb i: 1, 2^26, 2^51, 2^77, ... */
  function Weight(i: nat): int {
    if i == 0 then 1 else Radix(i - 1) * Weight(i - 1)
  }

  /** The value of the first n limbs. */
  function Sum(s: seq<int>, n: nat): int
    requires n <= |s|
  {
    if n == 0 then 0 else Sum(s, n - 1) + Weight(n - 1) * s[n - 1]
  }

  ghost predicate Bounded(s: seq<int>, n: nat, b: int) {
    n <= |s| && forall i :: 0 <= i < n ==> -b < s[i] < b
  }

  lemma {:induction false} SumSame(s: seq<int>, t: seq<int>, n: nat)
    requires n <= |s| && n <= |t| && s[..n] == t[..n]
    ensures Sum(s, n) == Sum(t, n)
  {
    if n > 0 {
      assert s[n - 1] == s[..n][n - 1] == t[..n][n - 1] == t[n - 1];
      assert s[..n - 1] == s[..n][..n - 1] == t[..n][..n - 1] == t[..n - 1];
      SumSame(s, t, n - 1);
    }
  }

  lemma {:induction false} SumUpdate(s: seq<int>, n: nat, i: nat, d: int)
    requires i < n <= |s|
    ensures Sum(s[i := s[i] + d], n) == Sum(s, n) + Weight(i) * d
  {
    var t := s[i := s[i] + d];
    if i == n - 1 {
      SumSame(s, t, n - 1);
      MulDistrib(Weight(i), s[i], d);
    } else {
      SumUpdate(s, n - 1, i, d);
    }
  }

  /** Moving c units of limb i + 1 into limb i. */
  lemma SumMove(s: seq<int>, n: nat, i: nat, c: int)
    requires i + 1 < n <= |s|
    ensures Sum(s[i := s[i] + Radix(i) * c][i + 1 := s[i + 1] - c], n) == Sum(s, n)
  {
    hide Sum, Radix;
    var t := s[i := s[i] + Radix(i) * c];
    SumUpdate(s, n, i, Radix(i) * c);
    SumUpdate(t, n, i + 1, -c);
    MoveExact(Weight(i), Radix(i), c);
  }

  lemma MoveExact(w: int, r: int, c: int)
    ensures w * (r * c) + (r * w) * (-c) == 0
  {
    MulAssoc(w, r, c);
  }

  lemma Weights()
    ensures Weight(10) == TWO255
  {
    assert Weight(5) == TWO26 * TWO25 * TWO26 * TWO25 * TWO26;
  }

  lemma {:induction false} WeightRepeats(i: nat)
    ensures Weight(10 + i) == TWO255 * Weight(i)
  {
    if i == 0 {
      Weights();
    } else {
      WeightRepeats(i - 1);
      MulAssoc(TWO255, Radix(i - 1), Weight(i - 1));
    }
  }

  /** The limbs above the tenth repeat the positions of the lower ones from 255 on. */
  lemma {:induction false} SumHigh(s: seq<int>, n: nat)
    requires 10 + n <= |s|
    ensures Sum(s, 10 + n) == Sum(s, 10) + TWO255 * Sum(s[10..], n)
  {
    if n > 0 {
      SumHigh(s, n - 1);
      WeightRepeats(n - 1);
      var w, d := Weight(n - 1), s[10 + n - 1];
      assert s[10..][n - 1] == d;
      MulAssoc(TWO255, w, d);
      MulDistrib(TWO255, Sum(s[10..], n - 1), w * d);
    }
  }

  // ---------------------------------------------------------------- products

  function Prod(x: int, y: int): int {
    x * y
  }

  /** The C conversion to a signed 32-bit integer. */
  function Narrow(x: int): (r: int)
    ensures -0x8000_0000 <= r < 0x8000_0000
    ensures -0x8000_0000 <= x < 0x8000_0000 ==> r == x
  {
    (x + 0x8000_0000) % 0x1_0000_0000 - 0x8000_0000
  }

  lemma ProdBound(x: int, y: int, b: int)
    requires -b <= x <= b && -b <= y <= b
    ensures -(b * b) <= Prod(x, y) <= b * b
  {
    if x >= 0 {
      MulLe(x, y, b); MulLe(x, -b, y); MulLe(b, x, b);
    } else {
      MulLe(-x, y, b); MulLe(-x, -b, y); MulLe(b, -x, b);
    }
  }

  /** Both factors are cut to 32 bits, and the product is a 64-bit one. */
  function Mul32(x: Limb, y: Limb): (r: Int64)
    ensures -TWO27 < x < TWO27 && -TWO27 < y < TWO27 ==> r as int == Prod(x, y) && -TWO54 < r as int < TWO54
  {
    ProdBound(Narrow(x), Narrow(y), 0x8000_0000);
    if -TWO27 < x < TWO27 && -TWO27 < y < TWO27 then ProdBound(x, y, TWO27 - 1); (Narrow(x) * Narrow(y)) as Int64
    else (Narrow(x) * Narrow(y)) as Int64
  }

  /** The positions of two odd limbs add up to one more than the position of their sum. */
  function Twice(i: nat, j: nat): int {
    if i % 2 == 1 && j % 2 == 1 then 2 else 1
  }

  function Term(x: seq<int>, y: seq<int>, i: nat, k: nat): int
    requires |x| >= 10 && |y| >= 10 && i < 10
  {
    if i <= k < i + 10 then Twice(i, k - i) * Prod(x[i], y[k - i]) else 0
  }

  /** Column k of the product: all the terms with i + j == k, from i on. */
  function Column(x: seq<int>, y: seq<int>, k: nat, i: nat): int
    requires |x| >= 10 && |y| >= 10
    decreases 10 - i
  {
    if i >= 10 then 0 else Term(x, y, i, k) + Column(x, y, k, i + 1)
  }

  lemma WeightSkip(j: nat)
    ensures Weight(j + 2) == TWO26 * TWO25 * Weight(j)
  {
    assert Weight(j + 1) == Radix(j) * Weight(j);
  }

  lemma {:induction false} WeightProduct(i: nat, j: nat)
    ensures Weight(i) * Weight(j) == Weight(i + j) * Twice(i, j)
  {
    if j == 0 {
    } else if j == 1 {
      assert Weight(1) == TWO26;
    } else {
      WeightProduct(i, j - 2);
      WeightSkip(j - 2); WeightSkip(i + j - 2);
      hide Weight;
      MulAssoc(Weight(i), TWO26 * TWO25, Weight(j - 2));
      MulAssoc(TWO26 * TWO25, Weight(i), Weight(j - 2));
      MulAssoc(TWO26 * TWO25, Weight(i + j - 2), Twice(i, j));
    }
  }

  /** The columns below n at their weights, each from row i on. */
  function Columns(x: seq<int>, y: seq<int>, i: nat, n: nat): int
    requires |x| >= 10 && |y| >= 10
    decreases n
  {
    if n == 0 then 0 else Columns(x, y, i, n - 1) + Weight(n - 1) * Column(x, y, n - 1, i)
  }

  function Clip(n: int): nat {
    if n < 0 then 0 else if n > 10 then 10 else n
  }

  /** Row i: its products are found in columns i to i + 9. */
  lemma {:induction false} RowOut(x: seq<int>, y: seq<int>, i: nat, n: nat)
    requires |x| >= 10 && |y| >= 10 && i < 10
    ensures Columns(x, y, i, n) == Columns(x, y, i + 1, n) + Weight(i) * (x[i] * Sum(y, Clip(n - i)))
    decreases n
  {
    hide Column, Sum, Weight, Prod, Term, Twice;
    SumNext(y, Clip(n - i - 1));
    if n > 0 {
      RowOut(x, y, i, n - 1);
      var k := n - 1;
      ColumnOut(x, y, k, i);
      if i <= k < i + 10 {
        var j := k - i;
        assert Clip(n - i) == j + 1 && Clip(n - 1 - i) == j;
        WeightProduct(i, j);
        TermOut(Weight(k), Weight(i), Weight(j), Twice(i, j), x[i], y[j], Sum(y, j), Column(x, y, k, i + 1));
      } else {
        assert Clip(n - i) == Clip(n - 1 - i);
      }
    }
  }

  lemma SumNext(s: seq<int>, n: nat)
    requires n <= |s|
    ensures Sum(s, 0) == 0 && (n < |s| ==> Sum(s, n + 1) == Sum(s, n) + Weight(n) * s[n])
  {}

  lemma ColumnOut(x: seq<int>, y: seq<int>, k: nat, i: nat)
    requires |x| >= 10 && |y| >= 10 && i < 10
    ensures Column(x, y, k, i) == Column(x, y, k, i + 1) + if i <= k < i + 10 then Twice(i, k - i) * (x[i] * y[k - i]) else 0
  {}

  lemma TermOut(wk: int, wi: int, wj: int, t: int, a: int, b: int, sum: int, rest: int)
    requires wi * wj == wk * t
    ensures wk * (t * (a * b) + rest) + wi * (a * sum) == wk * rest + wi * (a * (sum + wj * b))
  {
    var ab := a * b;
    MulDistrib(wk, t * ab, rest);
    MulAssoc(wk, t, ab);
    MulAssoc(wi, wj, ab);
    MulDistrib(a, sum, wj * b);
    MulAssoc(a, wj, b); MulAssoc(wj, a, b);
    MulDistrib(wi, a * sum, wj * ab);
  }

  /** All rows together. */
  lemma {:induction false} AllRows(x: seq<int>, y: seq<int>, i: nat)
    requires |x| >= 10 && |y| >= 10 && i <= 10
    ensures Columns(x, y, 0, 19) == Columns(x, y, i, 19) + Sum(x, i) * Sum(y, 10)
  {
    hide Columns, Sum, Weight;
    SumNext(x, 0);
    if i > 0 {
      SumNext(x, i - 1);
      AllRows(x, y, i - 1);
      RowOut(x, y, i - 1, 19);
      var v := Sum(y, 10);
      MulDistrib(v, Sum(x, i - 1), Weight(i - 1) * x[i - 1]);
      MulAssoc(Weight(i - 1), x[i - 1], v);
    }
  }

  lemma {:induction false} NoRows(x: seq<int>, y: seq<int>, n: nat)
    requires |x| >= 10 && |y| >= 10
    ensures Columns(x, y, 10, n) == 0
  {
    if n > 0 { NoRows(x, y, n - 1); }
  }

  lemma {:induction false} SumColumns(x: seq<int>, y: seq<int>, s: seq<int>, n: nat)
    requires |x| >= 10 && |y| >= 10 && n <= |s| && forall k :: 0 <= k < n ==> s[k] == Column(x, y, k, 0)
    ensures Sum(s, n) == Columns(x, y, 0, n)
  {
    if n > 0 { SumColumns(x, y, s, n - 1); }
  }

  /** Nineteen columns hold the exact product. */
  lemma ProductValue(x: seq<int>, y: seq<int>, s: seq<int>)
    requires |x| >= 10 && |y| >= 10 && |s| >= 19 && forall k :: 0 <= k < 19 ==> s[k] == Column(x, y, k, 0)
    ensures Sum(s, 19) == Sum(x, 10) * Sum(y, 10)
  {
    SumColumns(x, y, s, 19);
    AllRows(x, y, 10);
    NoRows(x, y, 19);
  }

  function ProductLower(x: seq<Limb>, y: seq<Limb>, k: nat): (r: Limb)
    requires Bounded(x, 10, TWO27) && Bounded(y, 10, TWO27) && k <= 6
    ensures -14 * TWO54 < r < 14 * TWO54
  {
    match k
    case 0 => (Mul32(x[0], y[0])) as Limb
    case 1 => (Mul32(x[0], y[1]) + Mul32(x[1], y[0])) as Limb
    case 2 => (2 * Mul32(x[1], y[1]) + Mul32(x[0], y[2]) + Mul32(x[2], y[0])) as Limb
    case 3 => (Mul32(x[1], y[2]) + Mul32(x[2], y[1]) + Mul32(x[0], y[3]) + Mul32(x[3], y[0])) as Limb
    case 4 => (Mul32(x[2], y[2]) + 2 * (Mul32(x[1], y[3]) + Mul32(x[3], y[1])) + Mul32(x[0], y[4]) +
                 Mul32(x[4], y[0])) as Limb
    case 5 => (Mul32(x[2], y[3]) + Mul32(x[3], y[2]) + Mul32(x[1], y[4]) + Mul32(x[4], y[1]) +
                 Mul32(x[0], y[5]) + Mul32(x[5], y[0])) as Limb
    case _ => (2 * (Mul32(x[3], y[3]) + Mul32(x[1], y[5]) + Mul32(x[5], y[1])) + Mul32(x[2], y[4]) +
                 Mul32(x[4], y[2]) + Mul32(x[0], y[6]) + Mul32(x[6], y[0])) as Limb
  }

  function ProductMiddle(x: seq<Limb>, y: seq<Limb>, k: nat): (r: Limb)
    requires Bounded(x, 10, TWO27) && Bounded(y, 10, TWO27) && 7 <= k <= 9
    ensures -14 * TWO54 < r < 14 * TWO54
  {
    match k
    case 7 => (Mul32(x[3], y[4]) + Mul32(x[4], y[3]) + Mul32(x[2], y[5]) + Mul32(x[5], y[2]) +
                 Mul32(x[1], y[6]) + Mul32(x[6], y[1]) + Mul32(x[0], y[7]) + Mul32(x[7], y[0])) as Limb
    case 8 => (Mul32(x[4], y[4]) + 2 * (Mul32(x[3], y[5]) + Mul32(x[5], y[3]) + Mul32(x[1], y[7]) +
                 Mul32(x[7], y[1])) + Mul32(x[2], y[6]) + Mul32(x[6], y[2]) + Mul32(x[0], y[8]) +
                 Mul32(x[8], y[0])) as Limb
    case _ => (Mul32(x[4], y[5]) + Mul32(x[5], y[4]) + Mul32(x[3], y[6]) + Mul32(x[6], y[3]) +
                 Mul32(x[2], y[7]) + Mul32(x[7], y[2]) + Mul32(x[1], y[8]) + Mul32(x[8], y[1]) +
                 Mul32(x[0], y[9]) + Mul32(x[9], y[0])) as Limb
  }

  function ProductUpper(x: seq<Limb>, y: seq<Limb>, k: nat): (r: Limb)
    requires Bounded(x, 10, TWO27) && Bounded(y, 10, TWO27) && 10 <= k < 19
    ensures -14 * TWO54 < r < 14 * TWO54
  {
    match k
    case 10 => (2 * (Mul32(x[5], y[5]) + Mul32(x[3], y[7]) + Mul32(x[7], y[3]) + Mul32(x[1], y[9]) +
                 Mul32(x[9], y[1])) + Mul32(x[4], y[6]) + Mul32(x[6], y[4]) + Mul32(x[2], y[8]) +
                 Mul32(x[8], y[2])) as Limb
    case 11 => (Mul32(x[5], y[6]) + Mul32(x[6], y[5]) + Mul32(x[4], y[7]) + Mul32(x[7], y[4]) +
                 Mul32(x[3], y[8]) + Mul32(x[8], y[3]) + Mul32(x[2], y[9]) + Mul32(x[9], y[2])) as Limb
    case 12 => (Mul32(x[6], y[6]) + 2 * (Mul32(x[5], y[7]) + Mul32(x[7], y[5]) + Mul32(x[3], y[9]) +
                 Mul32(x[9], y[3])) + Mul32(x[4], y[8]) + Mul32(x[8], y[4])) as Limb
    case 13 => (Mul32(x[6], y[7]) + Mul32(x[7], y[6]) + Mul32(x[5], y[8]) + Mul32(x[8], y[5]) +
                 Mul32(x[4], y[9]) + Mul32(x[9], y[4])) as Limb
    case 14 => (2 * (Mul32(x[7], y[7]) + Mul32(x[5], y[9]) + Mul32(x[9], y[5])) + Mul32(x[6], y[8]) +
                 Mul32(x[8], y[6])) as Limb
    case 15 => (Mul32(x[7], y[8]) + Mul32(x[8], y[7]) + Mul32(x[6], y[9]) + Mul32(x[9], y[6])) as Limb
    case 16 => (Mul32(x[8], y[8]) + 2 * (Mul32(x[7], y[9]) + Mul32(x[9], y[7]))) as Limb
    case 17 => (Mul32(x[8], y[9]) + Mul32(x[9], y[8])) as Limb
    case _ => (2 * Mul32(x[9], y[9])) as Limb
  }

  function SquareLower(x: seq<Limb>, k: nat): (r: Limb)
    requires Bounded(x, 10, TWO27) && k <= 6
    ensures -14 * TWO54 < r < 14 * TWO54
  {
    match k
    case 0 => (Mul32(x[0], x[0])) as Limb
    case 1 => (2 * Mul32(x[0], x[1])) as Limb
    case 2 => (2 * (Mul32(x[1], x[1]) + Mul32(x[0], x[2]))) as Limb
    case 3 => (2 * (Mul32(x[1], x[2]) + Mul32(x[0], x[3]))) as Limb
    case 4 => (Mul32(x[2], x[2]) + 4 * Mul32(x[1], x[3]) + 2 * Mul32(x[0], x[4])) as Limb
    case 5 => (2 * (Mul32(x[2], x[3]) + Mul32(x[1], x[4]) + Mul32(x[0], x[5]))) as Limb
    case _ => (2 * (Mul32(x[3], x[3]) + Mul32(x[2], x[4]) + Mul32(x[0], x[6]) + 2 * Mul32(x[1], x[5]))) as Limb
  }

  function SquareMiddle(x: seq<Limb>, k: nat): (r: Limb)
    requires Bounded(x, 10, TWO27) && 7 <= k <= 9
    ensures -14 * TWO54 < r < 14 * TWO54
  {
    match k
    case 7 => (2 * (Mul32(x[3], x[4]) + Mul32(x[2], x[5]) + Mul32(x[1], x[6]) + Mul32(x[0], x[7]))) as Limb
    case 8 => (Mul32(x[4], x[4]) + 2 * (Mul32(x[2], x[6]) + Mul32(x[0], x[8]) + 2 * (Mul32(x[1], x[7]) +
                 Mul32(x[3], x[5])))) as Limb
    case _ => (2 * (Mul32(x[4], x[5]) + Mul32(x[3], x[6]) + Mul32(x[2], x[7]) + Mul32(x[1], x[8]) +
                 Mul32(x[0], x[9]))) as Limb
  }

  function SquareUpper(x: seq<Limb>, k: nat): (r: Limb)
    requires Bounded(x, 10, TWO27) && 10 <= k < 19
    ensures -14 * TWO54 < r < 14 * TWO54
  {
    match k
    case 10 => (2 * (Mul32(x[5], x[5]) + Mul32(x[4], x[6]) + Mul32(x[2], x[8]) + 2 * (Mul32(x[3], x[7]) +
                 Mul32(x[1], x[9])))) as Limb
    case 11 => (2 * (Mul32(x[5], x[6]) + Mul32(x[4], x[7]) + Mul32(x[3], x[8]) + Mul32(x[2], x[9]))) as Limb
    case 12 => (Mul32(x[6], x[6]) + 2 * (Mul32(x[4], x[8]) + 2 * (Mul32(x[5], x[7]) + Mul32(x[3], x[9])))) as Limb
    case 13 => (2 * (Mul32(x[6], x[7]) + Mul32(x[5], x[8]) + Mul32(x[4], x[9]))) as Limb
    case 14 => (2 * (Mul32(x[7], x[7]) + Mul32(x[6], x[8]) + 2 * Mul32(x[5], x[9]))) as Limb
    case 15 => (2 * (Mul32(x[7], x[8]) + Mul32(x[6], x[9]))) as Limb
    case 16 => (Mul32(x[8], x[8]) + 4 * Mul32(x[7], x[9])) as Limb
    case 17 => (2 * Mul32(x[8], x[9])) as Limb
    case _ => (2 * Mul32(x[9], x[9])) as Limb
  }


  lemma ProductLowerIs(x: seq<Limb>, y: seq<Limb>, k: nat)
    requires Bounded(x, 10, TWO27) && Bounded(y, 10, TWO27) && 0 <= k <= 6
    ensures ProductLower(x, y, k) == Column(x, y, k, 0)
  {
    hide Prod, Mul32, Narrow;
    if k == 0 { assert ProductLower(x, y, 0) == Column(x, y, 0, 0); }
    if k == 1 { assert ProductLower(x, y, 1) == Column(x, y, 1, 0); }
    if k == 2 { assert ProductLower(x, y, 2) == Column(x, y, 2, 0); }
    if k == 3 { assert ProductLower(x, y, 3) == Column(x, y, 3, 0); }
    if k == 4 { assert ProductLower(x, y, 4) == Column(x, y, 4, 0); }
    if k == 5 { assert ProductLower(x, y, 5) == Column(x, y, 5, 0); }
    if k == 6 { assert ProductLower(x, y, 6) == Column(x, y, 6, 0); }
  }

  lemma ProductMiddleIs(x: seq<Limb>, y: seq<Limb>, k: nat)
    requires Bounded(x, 10, TWO27) && Bounded(y, 10, TWO27) && 7 <= k <= 9
    ensures ProductMiddle(x, y, k) == Column(x, y, k, 0)
  {
    hide Prod, Mul32, Narrow;
    if k == 7 { assert ProductMiddle(x, y, 7) == Column(x, y, 7, 0); }
    if k == 8 { assert ProductMiddle(x, y, 8) == Column(x, y, 8, 0); }
    if k == 9 { assert ProductMiddle(x, y, 9) == Column(x, y, 9, 0); }
  }

  lemma ProductUpperIs(x: seq<Limb>, y: seq<Limb>, k: nat)
    requires Bounded(x, 10, TWO27) && Bounded(y, 10, TWO27) && 10 <= k < 19
    ensures ProductUpper(x, y, k) == Column(x, y, k, 0)
  {
    hide Prod, Mul32, Narrow;
    if k == 10 { assert ProductUpper(x, y, 10) == Column(x, y, 10, 0); }
    if k == 11 { assert ProductUpper(x, y, 11) == Column(x, y, 11, 0); }
    if k == 12 { assert ProductUpper(x, y, 12) == Column(x, y, 12, 0); }
    if k == 13 { assert ProductUpper(x, y, 13) == Column(x, y, 13, 0); }
    if k == 14 { assert ProductUpper(x, y, 14) == Column(x, y, 14, 0); }
    if k == 15 { assert ProductUpper(x, y, 15) == Column(x, y, 15, 0); }
    if k == 16 { assert ProductUpper(x, y, 16) == Column(x, y, 16, 0); }
    if k == 17 { assert ProductUpper(x, y, 17) == Column(x, y, 17, 0); }
    if k == 18 { assert ProductUpper(x, y, 18) == Column(x, y, 18, 0); }
  }

  lemma SquareLowerIs(x: seq<Limb>)
    requires Bounded(x, 10, TWO27)
    ensures forall k :: 0 <= k <= 6 ==> SquareLower(x, k) == ProductLower(x, x, k)
  {
  }

  lemma SquareMiddleIs(x: seq<Limb>)
    requires Bounded(x, 10, TWO27)
    ensures forall k :: 7 <= k <= 9 ==> SquareMiddle(x, k) == ProductMiddle(x, x, k)
  {
  }

  lemma SquareUpperIs(x: seq<Limb>)
    requires Bounded(x, 10, TWO27)
    ensures forall k :: 10 <= k < 19 ==> SquareUpper(x, k) == ProductUpper(x, x, k)
  {
  }
}
