/** Multi-word arithmetic on digit arrays.  Every routine works on the `n` digits that start
    at an offset, and may write its result over one of its operands. */
module EccVli {
  import opened Arith
  import opened EccDigits

  const TOP_BIT: int := 0x8000_0000_0000_0000

  function At(a: array<Word>, o: nat, n: nat): seq<Word>
    requires o + n <= a.Length
    reads a
  {
    a[o..o + n]
  }

  /** The value of the `n` digits of `a` from offset `o`. */
  function Val(a: array<Word>, o: nat, n: nat): nat
    requires o + n <= a.Length
    reads a
  {
    Value(a[o..o + n])
  }

  /** The region may be an operand itself, but must not overlap it otherwise. */
  predicate Aligned(r: array<Word>, ro: nat, a: array<Word>, ao: nat, n: nat) {
    r == a ==> ro == ao || ro + n <= ao || ao + n <= ro
  }

  twostate predicate Outside(r: array<Word>, ro: nat, n: nat)
    requires ro + n <= r.Length
    reads r
  {
    forall k :: 0 <= k < r.Length && !(ro <= k < ro + n) ==> r[k] == old(r[k])
  }

  method Add(r: array<Word>, ro: nat, a: array<Word>, ao: nat, b: array<Word>, bo: nat, n: nat) returns (carry: Word)
    requires ro + n <= r.Length && ao + n <= a.Length && bo + n <= b.Length
    requires Aligned(r, ro, a, ao, n) && Aligned(r, ro, b, bo, n)
    modifies r
    ensures carry <= 1 && Val(r, ro, n) + Pow(n) * carry == old(Val(a, ao, n)) + old(Val(b, bo, n))
    ensures Outside(r, ro, n)
  {
    hide Value, Pow;
    ghost var x, y := a[ao..ao + n], b[bo..bo + n];
    carry := 0;
    AddStart(x, y);
    assert r[ro..ro + 0] == [];
    var i := 0;
    while i < n
      invariant 0 <= i <= n && carry <= 1
      invariant forall k :: i <= k < n ==> a[ao + k] == x[k] && b[bo + k] == y[k]
      invariant Value(r[ro..ro + i]) + Pow(i) * carry == Value(x[..i]) + Value(y[..i])
      invariant Outside(r, ro, n)
    {
      var left: int, right: int := a[ao + i], b[bo + i];
      var sum: int := (left + right + carry) % BASE;
      ghost var c0: int, lo := carry, r[ro..ro + i];
      if sum != left {
        carry := if sum < left then 1 else 0;
      }
      r[ro + i] := sum;
      assert r[ro..ro + (i + 1)] == lo + [sum];
      AddDigit(x, y, i, lo, sum, carry, c0);
      i := i + 1;
    }
    assert x[..n] == x && y[..n] == y;
  }

  lemma AddStart(x: seq<Word>, y: seq<Word>)
    ensures Value([]) == 0 && Value(x[..0]) == 0 && Value(y[..0]) == 0
  {}

  lemma AddDigit(x: seq<Word>, y: seq<Word>, i: nat, lo: seq<Word>, sum: Word, carry: int, c0: int)
    requires i < |x| && i < |y| && |lo| == i && sum + BASE * carry == x[i] as int + y[i] as int + c0
    requires Value(lo) + Pow(i) * c0 == Value(x[..i]) + Value(y[..i])
    ensures Value(lo + [sum]) + Pow(i + 1) * carry == Value(x[..i + 1]) + Value(y[..i + 1])
  {
    ValueSnoc(lo, sum);
    ValuePrefix(x, i); ValuePrefix(y, i);
    Carry(Pow(i), sum, carry, x[i], y[i], c0);
  }

  lemma Carry(p: nat, sum: int, c: int, x: int, y: int, c0: int)
    requires sum + BASE * c == x + y + c0
    ensures p * sum + (BASE * p) * c == p * x + p * y + p * c0
  {
    MulAssoc(p, BASE, c);
    MulDistrib(p, sum, BASE * c);
    MulDistrib(p, x, y); MulDistrib(p, x + y, c0);
  }

  method Sub(r: array<Word>, ro: nat, a: array<Word>, ao: nat, b: array<Word>, bo: nat, n: nat) returns (borrow: Word)
    requires ro + n <= r.Length && ao + n <= a.Length && bo + n <= b.Length
    requires Aligned(r, ro, a, ao, n) && Aligned(r, ro, b, bo, n)
    modifies r
    ensures borrow <= 1 && Val(r, ro, n) == old(Val(a, ao, n)) - old(Val(b, bo, n)) + Pow(n) * borrow
    ensures Outside(r, ro, n)
  {
    hide Value, Pow;
    ghost var x, y := a[ao..ao + n], b[bo..bo + n];
    borrow := 0;
    AddStart(x, y);
    assert r[ro..ro + 0] == [];
    var i := 0;
    while i < n
      invariant 0 <= i <= n && borrow <= 1
      invariant forall k :: i <= k < n ==> a[ao + k] == x[k] && b[bo + k] == y[k]
      invariant Value(r[ro..ro + i]) + Value(y[..i]) == Value(x[..i]) + Pow(i) * borrow
      invariant Outside(r, ro, n)
    {
      var left: int, right: int := a[ao + i], b[bo + i];
      var diff: int := (left - right - borrow) % BASE;
      ghost var b0: int, lo := borrow, r[ro..ro + i];
      if diff != left {
        borrow := if diff > left then 1 else 0;
      }
      r[ro + i] := diff;
      assert r[ro..ro + (i + 1)] == lo + [diff];
      SubDigit(x, y, i, lo, diff, borrow, b0);
      i := i + 1;
    }
    assert x[..n] == x && y[..n] == y;
  }

  lemma SubDigit(x: seq<Word>, y: seq<Word>, i: nat, lo: seq<Word>, diff: Word, borrow: int, b0: int)
    requires i < |x| && i < |y| && |lo| == i && diff as int + y[i] as int + b0 == x[i] as int + BASE * borrow
    requires Value(lo) + Value(y[..i]) == Value(x[..i]) + Pow(i) * b0
    ensures Value(lo + [diff]) + Value(y[..i + 1]) == Value(x[..i + 1]) + Pow(i + 1) * borrow
  {
    ValueSnoc(lo, diff);
    ValuePrefix(x, i); ValuePrefix(y, i);
    Carry(Pow(i), x[i], borrow, diff, y[i], b0);
  }

  /** The sign of the difference. */
  method Cmp(a: array<Word>, ao: nat, b: array<Word>, bo: nat, n: nat) returns (sign: int)
    requires ao + n <= a.Length && bo + n <= b.Length
    ensures sign == if Val(a, ao, n) < Val(b, bo, n) then -1 else if Val(a, ao, n) > Val(b, bo, n) then 1 else 0
  {
    hide Value;
    ghost var x, y := a[ao..ao + n], b[bo..bo + n];
    var i := n;
    while i > 0
      invariant 0 <= i <= n && x[i..] == y[i..]
    {
      i := i - 1;
      if a[ao + i] > b[bo + i] {
        ValueCompare(y, x, i);
        return 1;
      } else if a[ao + i] < b[bo + i] {
        ValueCompare(x, y, i);
        return -1;
      }
      assert x[i..] == [x[i]] + x[i + 1..] && y[i..] == [y[i]] + y[i + 1..];
    }
    assert x[0..] == x && y[0..] == y;
    return 0;
  }

  method Set(r: array<Word>, ro: nat, a: array<Word>, ao: nat, n: nat)
    requires ro + n <= r.Length && ao + n <= a.Length && Aligned(r, ro, a, ao, n)
    modifies r
    ensures At(r, ro, n) == old(At(a, ao, n)) && Outside(r, ro, n)
  {
    ghost var x := a[ao..ao + n];
    var i := 0;
    while i < n
      invariant 0 <= i <= n && Outside(r, ro, n)
      invariant forall k :: i <= k < n ==> a[ao + k] == x[k]
      invariant forall k :: 0 <= k < i ==> r[ro + k] == x[k]
    {
      r[ro + i] := a[ao + i];
      i := i + 1;
    }
  }

  method Clear(r: array<Word>, ro: nat, n: nat)
    requires ro + n <= r.Length
    modifies r
    ensures (forall k :: ro <= k < ro + n ==> r[k] == 0) && Val(r, ro, n) == 0 && Outside(r, ro, n)
  {
    var i := 0;
    while i < n
      invariant 0 <= i <= n && Outside(r, ro, n)
      invariant forall k :: ro <= k < ro + i ==> r[k] == 0
    {
      r[ro + i] := 0;
      i := i + 1;
    }
    ValueZeros(r[ro..ro + n]);
  }

  method IsZero(a: array<Word>, ao: nat, n: nat) returns (zero: bool)
    requires ao + n <= a.Length
    ensures zero <==> Val(a, ao, n) == 0
  {
    ghost var x := a[ao..ao + n];
    ValueZeros(x);
    var i := 0;
    while i < n
      invariant 0 <= i <= n && forall k :: 0 <= k < i ==> x[k] == 0
    {
      if a[ao + i] != 0 {
        assert x[i] != 0;
        return false;
      }
      i := i + 1;
    }
    return true;
  }

  lemma ShiftExpand(p: int, q: int, hi: int, lo: int)
    requires p * q == BASE
    ensures p * (q * hi + lo) == BASE * hi + p * lo
  {
    MulDistrib(p, q * hi, lo);
    MulAssoc(p, q, hi);
  }

  lemma ShiftBounds(p: int, q: int, hi: int, lo: int)
    requires p * q == BASE && 0 < p && 0 < q && 0 <= lo < q && 0 <= q * hi + lo < BASE
    ensures 0 <= p * lo && p * lo + p <= BASE && 0 <= hi < p
  {
    MulLe(p, 0, lo);
    MulLt(p, lo, q);
    if hi >= p { MulLe(q, p, hi); }
    if hi < 0 { MulLe(q, hi, -1); }
  }

  lemma ShiftNums(t: int, p: int, q: int)
    requires 0 <= t < BASE && 0 < p && 0 < q && p * q == BASE
    ensures t * p == BASE * (t / q) + (t * p) % BASE && (t * p) % BASE + p <= BASE && 0 <= t / q < p
  {
    var hi, lo := t / q, t % q;
    var pl := p * lo;
    assert t == q * hi + lo;
    ShiftExpand(p, q, hi, lo);
    ShiftBounds(p, q, hi, lo);
    var tp := t * p;
    assert tp == BASE * hi + pl;
    assert tp % BASE == pl && tp / BASE == hi by { DivModUnique(tp, BASE, hi, pl); }
  }

  /** One digit of a left shift: the bits that stay and the bits that leave. */
  lemma ShiftDigit(t: Word, s: nat)
    requires 0 < s < 64
    ensures t as int * Two(s) == BASE * (t as int / Two(64 - s)) + (t as int * Two(s)) % BASE
    ensures (t as int * Two(s)) % BASE + Two(s) <= BASE
    ensures 0 <= t as int / Two(64 - s) < Two(s)
  {
    hide Two;
    TwoAdd(s, 64 - s);
    Two64();
    ShiftNums(t, Two(s), Two(64 - s));
  }

  method LShift(r: array<Word>, ro: nat, a: array<Word>, ao: nat, shift: nat, n: nat) returns (carry: Word)
    requires ro + n <= r.Length && ao + n <= a.Length && Aligned(r, ro, a, ao, n) && 0 < shift < 64
    modifies r
    ensures carry < Two(shift) && Val(r, ro, n) + Pow(n) * carry == old(Val(a, ao, n)) * Two(shift)
    ensures Outside(r, ro, n)
  {
    hide Value, Pow, Two;
    ghost var x := a[ao..ao + n];
    carry := 0;
    AddStart(x, x);
    assert r[ro..ro + 0] == [];
    var i := 0;
    while i < n
      invariant 0 <= i <= n && carry < Two(shift)
      invariant forall k :: i <= k < n ==> a[ao + k] == x[k]
      invariant Value(r[ro..ro + i]) + Pow(i) * carry == Value(x[..i]) * Two(shift)
      invariant Outside(r, ro, n)
    {
      var temp: int := a[ao + i];
      ghost var c0: int, lo := carry, r[ro..ro + i];
      ShiftDigit(temp, shift);
      var digit := (temp * Two(shift)) % BASE + carry;
      r[ro + i] := digit;
      carry := temp / Two(64 - shift);
      assert r[ro..ro + (i + 1)] == lo + [digit];
      ShiftStep(x, i, lo, digit, carry, c0, Two(shift));
      i := i + 1;
    }
    assert x[..n] == x;
  }

  lemma PowSucc(i: nat)
    ensures Pow(i + 1) == BASE * Pow(i)
  {}

  lemma ShiftStep(x: seq<Word>, i: nat, lo: seq<Word>, digit: Word, carry: int, c0: int, f: int)
    requires i < |x| && |lo| == i && digit as int + BASE * carry == x[i] as int * f + c0
    requires Value(lo) + Pow(i) * c0 == Value(x[..i]) * f
    ensures Value(lo + [digit]) + Pow(i + 1) * carry == Value(x[..i + 1]) * f
  {
    hide Value, Pow;
    PowSucc(i);
    ValueSnoc(lo, digit);
    ValuePrefix(x, i);
    var p, v := Pow(i), Value(x[..i]);
    Carry(p, digit, carry, x[i] * f, 0, c0);
    MulDistrib(f, v, p * x[i]);
    MulAssoc(p, x[i], f);
  }

  /** Halving in place, from the top digit down. */
  method RShift1(a: array<Word>, ao: nat, n: nat)
    requires ao + n <= a.Length
    modifies a
    ensures Val(a, ao, n) == old(Val(a, ao, n)) / 2 && Outside(a, ao, n)
  {
    hide Value;
    ghost var x := a[ao..ao + n];
    var carry := 0;
    ghost var bit := 0;
    var i := n;
    AddStart(x, x);
    assert a[ao + n..ao + n] == [] && x[n..] == [];
    while i > 0
      invariant 0 <= i <= n && 0 <= bit <= 1 && carry == TOP_BIT * bit && Outside(a, ao, n)
      invariant forall k :: 0 <= k < i ==> a[ao + k] == x[k]
      invariant 2 * Value(a[ao + i..ao + n]) + bit == Value(x[i..])
    {
      i := i - 1;
      var temp: int := a[ao + i];
      ghost var hi := a[ao + (i + 1)..ao + n];
      var digit := temp / 2 + carry;
      a[ao + i] := digit;
      carry := (temp % 2) * TOP_BIT;
      bit := temp % 2;
      assert a[ao + i..ao + n] == [digit] + hi;
      assert x[i..] == [x[i]] + x[i + 1..];
      ValueCons(digit, hi);
      ValueCons(x[i], x[i + 1..]);
    }
    assert x[0..] == x;
  }

  lemma ValueCons(d: Word, s: seq<Word>)
    ensures Value([d] + s) == d + BASE * Value(s)
  {
    assert ([d] + s)[1..] == s;
  }

  /** The index above the most significant nonzero digit. */
  method NumDigits(a: array<Word>, ao: nat, n: nat) returns (d: nat)
    requires ao + n <= a.Length
    ensures d <= n && (d > 0 ==> At(a, ao, n)[d - 1] != 0) && forall k :: d <= k < n ==> At(a, ao, n)[k] == 0
  {
    ghost var x := At(a, ao, n);
    d := n;
    while d > 0 && a[ao + d - 1] == 0
      invariant 0 <= d <= n && forall k :: d <= k < n ==> x[k] == 0
    {
      d := d - 1;
      assert x[d] == 0;
    }
  }

  /** The number of bits of a value. */
  method NumBits(a: array<Word>, ao: nat, n: nat) returns (bits: nat)
    requires ao + n <= a.Length
    ensures BitLength(Val(a, ao, n), bits) && bits <= 64 * n
  {
    hide Value, Two, Pow, BitLength;
    var d := NumDigits(a, ao, n);
    ghost var x := a[ao..ao + n];
    assert x == At(a, ao, n);
    TopZero(x, d);
    if d == 0 {
      return 0;
    }
    var digit: int := a[ao + d - 1];
    ghost var top := digit;
    TwoStart(digit);
    var i := 0;
    while digit != 0
      invariant digit >= 0 && Two(i) * digit <= top < Two(i) * (digit + 1)
                && (digit == 0 ==> i > 0 && Two(i - 1) <= top)
      decreases digit
    {
      HalveStep(i, digit, top);
      digit := digit / 2;
      i := i + 1;
    }
    assert top < Two(i);
    TopBits(x, d, i);
    return (d - 1) * 64 + i;
  }

  lemma TwoStart(digit: int)
    ensures Two(0) == 1
  {}

  lemma HalveStep(i: nat, digit: int, top: int)
    requires digit > 0 && Two(i) * digit <= top < Two(i) * (digit + 1)
    ensures Two(i + 1) * (digit / 2) <= top < Two(i + 1) * (digit / 2 + 1) && (digit / 2 == 0 ==> Two(i) <= top)
  {
    var p, h := Two(i), digit / 2;
    MulAssoc(p, 2, h);
    MulAssoc(p, 2, h + 1);
    MulLe(p, 2 * h, digit);
    MulLe(p, digit + 1, 2 * (h + 1));
  }

  lemma TopZero(x: seq<Word>, d: nat)
    requires d <= |x| && forall k :: d <= k < |x| ==> x[k] == 0
    ensures Value(x) == Value(x[..d]) && (d == 0 ==> BitLength(Value(x), 0))
  {
    ValueSplit(x, d);
    ValueZeros(x[d..]);
  }

  lemma TopBits(x: seq<Word>, d: nat, i: nat)
    requires 0 < d <= |x| && 0 < i && Two(i - 1) <= x[d - 1] < Two(i) && Value(x) == Value(x[..d])
    ensures BitLength(Value(x), (d - 1) * 64 + i) && i <= 64
  {
    hide Value, Two, Pow;
    ValuePrefix(x, d - 1);
    ValueBound(x[..d - 1]);
    PowTwo(d - 1);
    var p, t := Pow(d - 1), x[d - 1];
    TwoAdd(64 * (d - 1), i);
    TwoAdd(64 * (d - 1), i - 1);
    MulLe(p, Two(i - 1), t);
    MulLt(p, t, Two(i));
    Two64();
    if i > 64 { TwoMono(64, i - 1); }
  }
}
