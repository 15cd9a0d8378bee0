/** Column-wise multiplication and squaring with a 192-bit accumulator. */
module EccMult {
  import opened Arith
  import opened EccDigits
  import opened EccVli

  const DOUBLE: int := 0x1_0000_0000_0000_0000_0000_0000_0000_0000

  /** The product of digit i of a and digit k - i of b, zero where there is no such digit. */
  function Term(a: seq<Word>, b: seq<Word>, k: int, i: nat): (r: nat)
    ensures r < DOUBLE
  {
    if i < |a| && 0 <= k - i < |b| then
      TermBound(a[i], b[k - i]);
      a[i] as int * b[k - i] as int
    else 0
  }

  lemma TermBound(x: Word, y: Word)
    ensures 0 <= x as int * y as int <= (BASE - 1) * (BASE - 1)
  {
    MulLe(x, 0, y); MulLe(x, y, BASE - 1); MulLe(BASE - 1, x, BASE - 1);
  }

  /** The terms of column k from index i on. */
  function Column(a: seq<Word>, b: seq<Word>, k: int, i: nat): (r: nat)
    decreases |a| - i
  {
    if i >= |a| then 0 else Term(a, b, k, i) + Column(a, b, k, i + 1)
  }

  /** The first m columns. */
  function Columns(a: seq<Word>, b: seq<Word>, m: nat): nat {
    if m == 0 then 0 else Columns(a, b, m - 1) + Pow(m - 1) * Column(a, b, m - 1, 0)
  }

  lemma {:induction false} ColumnTail(a: seq<Word>, b: seq<Word>, k: int, i: nat)
    requires a != []
    ensures Column(a, b, k, i + 1) == Column(a[1..], b, k - 1, i)
    decreases |a| - i
  {
    if i + 1 < |a| { ColumnTail(a, b, k, i + 1); }
  }

  lemma {:induction false} ColumnZero(a: seq<Word>, b: seq<Word>, k: int, i: nat)
    requires k < i
    ensures Column(a, b, k, i) == 0
    decreases |a| - i
  {
    if i < |a| { ColumnZero(a, b, k, i + 1); }
  }

  lemma {:induction false} ColumnSkip(a: seq<Word>, b: seq<Word>, k: int, i: nat)
    requires i <= |a| && (i > 0 ==> k - (i - 1) >= |b|)
    ensures Column(a, b, k, 0) == Column(a, b, k, i)
  {
    if i > 0 { ColumnSkip(a, b, k, i - 1); }
  }

  /** The value of the first m digits, or of all if there are fewer. */
  function Row(b: seq<Word>, m: nat): nat { Value(b[..if m < |b| then m else |b|]) }

  function Digit(b: seq<Word>, m: nat): nat { if m < |b| then b[m] else 0 }

  lemma RowStep(b: seq<Word>, m: nat)
    ensures Row(b, m + 1) == Row(b, m) + Pow(m) * Digit(b, m)
  {
    if m < |b| { ValuePrefix(b, m); }
  }

  lemma ConsStep(x: int, row: int, bm: int, p: int, q: int, c: int, d: int)
    requires p == BASE * q
    ensures (x * row + BASE * d) + p * (x * bm + c) == x * (row + p * bm) + BASE * (d + q * c)
  {
    MulDistrib(p, x * bm, c);
    MulDistrib(x, row, p * bm);
    MulDistrib(BASE, d, q * c);
    MulAssoc(BASE, q, c);
    MulAssoc(p, x, bm); MulAssoc(x, p, bm);
  }

  lemma ColumnsSucc(a: seq<Word>, b: seq<Word>, m: nat)
    ensures Columns(a, b, m + 1) == Columns(a, b, m) + Pow(m) * Column(a, b, m, 0) && Columns(a, b, 0) == 0
  {}

  lemma ColumnCons(a: seq<Word>, b: seq<Word>, k: nat)
    requires a != []
    ensures Column(a, b, k, 0) == a[0] as int * Digit(b, k) + Column(a[1..], b, k - 1, 0)
    ensures k == 0 ==> Column(a[1..], b, k - 1, 0) == 0 && Row(b, 0) == 0
  {
    ColumnTail(a, b, k, 0);
    if k == 0 { ColumnNegative(a[1..], b, -1, 0); }
  }

  /** The columns of a product are those of its first digit and, one place up, of the rest. */
  lemma {:induction false} ColumnsCons(a: seq<Word>, b: seq<Word>, m: nat)
    requires a != []
    ensures Columns(a, b, m + 1) == a[0] as int * Row(b, m + 1) + BASE * Columns(a[1..], b, m)
  {
    hide Columns, Column, Pow, Value, Row;
    var x: int, rest := a[0], a[1..];
    ColumnsSucc(a, b, m);
    ColumnCons(a, b, m);
    RowStep(b, m);
    if m == 0 {
      ColumnsSucc(rest, b, 0);
      MulAssoc(Pow(0), x, Digit(b, 0)); MulAssoc(x, Pow(0), Digit(b, 0));
    } else {
      ColumnsCons(a, b, m - 1);
      ColumnsSucc(rest, b, m - 1);
      PowSucc(m - 1);
      ConsStep(x, Row(b, m), Digit(b, m), Pow(m), Pow(m - 1), Column(rest, b, m - 1, 0), Columns(rest, b, m - 1));
    }
  }

  lemma {:induction false} ColumnNegative(a: seq<Word>, b: seq<Word>, k: int, i: nat)
    requires k < 0
    ensures Column(a, b, k, i) == 0
    decreases |a| - i
  {
    if i < |a| { ColumnNegative(a, b, k, i + 1); }
  }

  /** All the columns together make the product. */
  lemma {:induction false} ColumnsProduct(a: seq<Word>, b: seq<Word>, m: nat)
    requires m >= |a| + |b|
    ensures Columns(a, b, m) == Value(a) * Value(b)
    decreases |a|
  {
    if a == [] {
      ColumnsEmpty(a, b, m);
    } else {
      ColumnsProduct(a[1..], b, m - 1);
      ColumnsCons(a, b, m - 1);
      assert b[..|b|] == b && Value(a) == a[0] + BASE * Value(a[1..]);
      hide Columns, Value;
      ProductStep(a[0], Value(a[1..]), Value(b));
    }
  }

  lemma ProductStep(x: int, v: int, w: int)
    ensures (x + BASE * v) * w == x * w + BASE * (v * w)
  {
    MulDistrib(w, x, BASE * v);
    MulAssoc(BASE, v, w);
  }

  lemma {:induction false} ColumnsEmpty(a: seq<Word>, b: seq<Word>, m: nat)
    requires a == []
    ensures Columns(a, b, m) == 0
  {
    if m > 0 { ColumnsEmpty(a, b, m - 1); }
  }

  /** A 128-bit product added, with the carry found by comparison, on the accumulator r01 + DOUBLE * r2. */
  method Accumulate(r01: int, r2: int, product: int) returns (s01: int, s2: int)
    requires 0 <= r01 < DOUBLE && 0 <= product < DOUBLE && 0 <= r2 < BASE - 1
    ensures 0 <= s01 < DOUBLE && r2 <= s2 <= r2 + 1 && s01 + DOUBLE * s2 == r01 + DOUBLE * r2 + product
  {
    s01 := (r01 + product) % DOUBLE;
    s2 := r2 + if s01 < product then 1 else 0;
  }

  /** The column of digit k, added up from the lowest index that has both digits. */
  method SumColumn(a: array<Word>, b: array<Word>, n: nat, k: nat, r0: int) returns (r01: int, r2: int)
    requires a.Length == b.Length == n && 0 < n < 0x4000_0000 && k < 2 * n - 1 && 0 <= r0 < DOUBLE
    ensures 0 <= r01 < DOUBLE && 0 <= r2 <= n
    ensures r01 + DOUBLE * r2 == r0 + Column(a[..], b[..], k, 0)
  {
    hide Column, Term;
    ghost var x, y := a[..], b[..];
    r01, r2 := r0, 0;
    var min := if k < n then 0 else k + 1 - n;
    ColumnSkip(x, y, k, min);
    var i := min;
    while i <= k && i < n
      invariant min <= i <= n && i <= k + 1 && 0 <= r01 < DOUBLE && 0 <= r2 <= i - min
      invariant r01 + DOUBLE * r2 + Column(x, y, k, i) == r0 + Column(x, y, k, 0)
      decreases n - i
    {
      ColumnStep(x, y, k, i);
      var product: int := a[i] as int * b[k - i] as int;
      r01, r2 := Accumulate(r01, r2, product);
      i := i + 1;
    }
    ColumnEnd(x, y, k, i);
  }

  lemma ColumnStep(a: seq<Word>, b: seq<Word>, k: int, i: nat)
    requires i < |a| && 0 <= k - i < |b|
    ensures Column(a, b, k, i) == a[i] as int * b[k - i] as int + Column(a, b, k, i + 1)
    ensures 0 <= a[i] as int * b[k - i] as int < DOUBLE
  {
    TermBound(a[i], b[k - i]);
  }

  lemma ColumnEnd(a: seq<Word>, b: seq<Word>, k: int, i: nat)
    requires i >= |a| || i > k
    ensures Column(a, b, k, i) == 0
  {
    if i > k { ColumnZero(a, b, k, i); }
  }

  lemma StoreColumn(lo: seq<Word>, total: int, r01: int, r2: int, acc: int, col: int, all: int)
    requires 0 <= r01 < DOUBLE && 0 <= r2 < BASE && r01 + DOUBLE * r2 == acc + col
    requires Value(lo) + Pow(|lo|) * acc == total && all == total + Pow(|lo|) * col
    ensures var r := r01 / BASE + BASE * r2;
            0 <= r < DOUBLE && Value(lo + [r01 % BASE]) + Pow(|lo| + 1) * r == all
  {
    hide Value, Pow;
    var k, d, r := |lo|, r01 % BASE, r01 / BASE + BASE * r2;
    ValueSnoc(lo, d);
    PowSucc(k);
    assert acc + col == d + BASE * r;
    MulDistrib(Pow(k), acc, col);
    MulDistrib(Pow(k), d, BASE * r);
    MulAssoc(Pow(k), BASE, r);
  }

  lemma LastDigit(lo: seq<Word>, r: int, all: int)
    requires r >= 0 && all < Pow(|lo| + 1) && Value(lo) + Pow(|lo|) * r == all
    ensures r < BASE && Value(lo + [r]) == all
  {
    hide Value, Pow;
    PowSucc(|lo|);
    if r >= BASE { MulLe(Pow(|lo|), BASE, r); }
    ValueSnoc(lo, r);
  }

  lemma ProductBound(a: seq<Word>, b: seq<Word>)
    ensures Value(a) * Value(b) < Pow(|a| + |b|)
  {
    hide Value, Pow;
    ValueBound(a); ValueBound(b);
    PowAdd(|a|, |b|);
    MulLe(Value(a), Value(b), Pow(|b|) - 1);
    MulLe(Pow(|b|) - 1, Value(a), Pow(|a|) - 1);
    MulDistrib(Pow(|b|) - 1, Pow(|a|), 1);
    MulDistrib(Pow(|a|), Pow(|b|), 1);
  }

  /** `vli_mult`: the full product of two n-digit numbers, in 2n digits. */
  method Mult(result: array<Word>, left: array<Word>, right: array<Word>, n: nat)
    requires left.Length == right.Length == n && result.Length == 2 * n && 0 < n < 0x4000_0000
    modifies result
    ensures Val(result, 0, 2 * n) == old(Val(left, 0, n)) * old(Val(right, 0, n))
  {
    hide Value, Pow, Columns, Column;
    ghost var x, y := left[..], right[..];
    assert left[0..n] == x && right[0..n] == y;
    var r01 := 0;
    var k := 0;
    ColumnsSucc(x, y, 0);
    AddStart(x, y);
    assert result[..0] == [];
    while k < 2 * n - 1
      invariant 0 <= k <= 2 * n - 1 && 0 <= r01 < DOUBLE && left[..] == x && right[..] == y
      invariant Value(result[..k]) + Pow(k) * r01 == Columns(x, y, k)
    {
      ghost var lo, acc := result[..k], r01;
      var r2;
      r01, r2 := SumColumn(left, right, n, k, r01);
      result[k] := r01 % BASE;
      ColumnsSucc(x, y, k);
      StoreColumn(lo, Columns(x, y, k), r01, r2, acc, Column(x, y, k, 0), Columns(x, y, k + 1));
      assert result[..k + 1] == lo + [r01 % BASE];
      r01 := r01 / BASE + BASE * r2;
      k := k + 1;
    }
    LastColumn(x, y, n);
    ProductBound(x, y);
    ghost var lo := result[..k];
    LastDigit(lo, r01, Value(x) * Value(y));
    result[2 * n - 1] := r01;
    assert result[0..2 * n] == lo + [r01];
  }

  lemma LastColumn(a: seq<Word>, b: seq<Word>, n: nat)
    requires |a| == |b| == n > 0
    ensures Columns(a, b, 2 * n - 1) == Value(a) * Value(b)
  {
    ColumnsProduct(a, b, 2 * n);
    ColumnSkip(a, b, 2 * n - 1, n);
    assert Column(a, b, 2 * n - 1, n) == 0;
  }

  // ---------------------------------------------------------------- squaring

  /** The terms of a square's column between index i and its mirror image. */
  function Middle(a: seq<Word>, k: int, i: nat): int {
    if 2 * i <= k then Column(a, a, k, i) - Column(a, a, k, k - i + 1) else 0
  }

  lemma MiddleStep(a: seq<Word>, k: nat, i: nat)
    requires 2 * i <= k && k - i < |a|
    ensures Middle(a, k, i) == Middle(a, k, i + 1) + (if 2 * i < k then 2 else 1) * (a[i] as int * a[k - i] as int)
    ensures 0 <= a[i] as int * a[k - i] as int < DOUBLE
  {
    ColumnStep(a, a, k, i);
    if 2 * i < k {
      ColumnStep(a, a, k, k - i);
      assert Column(a, a, k, i) == a[i] as int * a[k - i] as int + Column(a, a, k, i + 1);
      if 2 * (i + 1) > k { assert i + 1 == k - i; }
    }
  }

  lemma MiddleAll(a: seq<Word>, k: nat, min: nat)
    requires min == (if k < |a| then 0 else k + 1 - |a|) && k < 2 * |a| - 1
    ensures Middle(a, k, min) == Column(a, a, k, 0)
  {
    ColumnSkip(a, a, k, min);
    ColumnEnd(a, a, k, k - min + 1);
  }

  /** A term of a square's column, doubled unless it is its own mirror image. */
  method AccumulateTerm(r01: int, r2: int, term: int, twice: bool) returns (s01: int, s2: int)
    requires 0 <= r01 < DOUBLE && 0 <= term < DOUBLE && 0 <= r2 < BASE - 2
    ensures 0 <= s01 < DOUBLE && r2 <= s2 <= r2 + 2
    ensures s01 + DOUBLE * s2 == r01 + DOUBLE * r2 + (if twice then 2 else 1) * term
  {
    var product, high := term, r2;
    if twice {
      var bit := product / (DOUBLE / 2);
      assert (product * 2) % DOUBLE == product * 2 - DOUBLE * bit by {
        DivModUnique(product * 2, DOUBLE, bit, product * 2 - DOUBLE * bit);
      }
      high := r2 + bit;
      product := (product * 2) % DOUBLE;
    }
    s01, s2 := Accumulate(r01, high, product);
  }

  /** The column of digit k of a square: every pair of mirrored terms is added once, doubled. */
  method SumSquareColumn(a: array<Word>, n: nat, k: nat, r0: int) returns (r01: int, r2: int)
    requires a.Length == n && 0 < n < 0x4000_0000 && k < 2 * n - 1 && 0 <= r0 < DOUBLE
    ensures 0 <= r01 < DOUBLE && 0 <= r2 <= 2 * n
    ensures r01 + DOUBLE * r2 == r0 + Column(a[..], a[..], k, 0)
  {
    hide Column, Term, Middle;
    ghost var x := a[..];
    r01, r2 := r0, 0;
    var min := if k < n then 0 else k + 1 - n;
    MiddleAll(x, k, min);
    var i := min;
    while i <= k && i <= k - i
      invariant min <= i && 2 * i <= k + 2 && 0 <= r01 < DOUBLE && 0 <= r2 <= 2 * (i - min)
      invariant r01 + DOUBLE * r2 + Middle(x, k, i) == r0 + Column(x, x, k, 0)
      decreases k + 2 - 2 * i
    {
      MiddleStep(x, k, i);
      var product: int := a[i] as int * a[k - i] as int;
      r01, r2 := AccumulateTerm(r01, r2, product, i < k - i);
      i := i + 1;
    }
    MiddleEnd(x, k, i);
  }

  lemma MiddleEnd(a: seq<Word>, k: int, i: nat)
    requires 2 * i > k
    ensures Middle(a, k, i) == 0
  {}

  /** `vli_square`. */
  method Square(result: array<Word>, left: array<Word>, n: nat)
    requires left.Length == n && result.Length == 2 * n && 0 < n < 0x4000_0000
    modifies result
    ensures Val(result, 0, 2 * n) == old(Val(left, 0, n)) * old(Val(left, 0, n))
  {
    hide Value, Pow, Columns, Column;
    ghost var x := left[..];
    assert left[0..n] == x;
    var r01 := 0;
    var k := 0;
    ColumnsSucc(x, x, 0);
    AddStart(x, x);
    assert result[..0] == [];
    while k < 2 * n - 1
      invariant 0 <= k <= 2 * n - 1 && 0 <= r01 < DOUBLE && left[..] == x
      invariant Value(result[..k]) + Pow(k) * r01 == Columns(x, x, k)
    {
      ghost var lo, acc := result[..k], r01;
      var r2;
      r01, r2 := SumSquareColumn(left, n, k, r01);
      result[k] := r01 % BASE;
      ColumnsSucc(x, x, k);
      StoreColumn(lo, Columns(x, x, k), r01, r2, acc, Column(x, x, k, 0), Columns(x, x, k + 1));
      assert result[..k + 1] == lo + [r01 % BASE];
      r01 := r01 / BASE + BASE * r2;
      k := k + 1;
    }
    LastColumn(x, x, n);
    ProductBound(x, x);
    ghost var lo := result[..k];
    LastDigit(lo, r01, Value(x) * Value(x));
    result[2 * n - 1] := r01;
    assert result[0..2 * n] == lo + [r01];
  }
}
