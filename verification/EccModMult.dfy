/** Multiplication modulo any number by shifting and subtracting. */
module EccModMult {
  import opened Arith
  import opened EccDigits
  import opened EccVli
  import opened EccMult
  import M = EccMod

  /** A number of 2n digits, from its halves. */
  lemma Halves(a: array<Word>, n: nat)
    requires a.Length == 2 * n
    ensures Val(a, 0, 2 * n) == Val(a, 0, n) + Pow(n) * Val(a, n, n)
    ensures Val(a, 0, n) < Pow(n) && Val(a, n, n) < Pow(n)
  {
    hide Value, Pow;
    var s := a[0..2 * n];
    ValueSplit(s, n);
    assert s[..n] == a[0..n] && s[n..] == a[n..n + n];
    ValueBound(a[0..n]); ValueBound(a[n..n + n]);
  }

  lemma CompareHalves(p: int, lo: int, hi: int, lo': int, hi': int)
    requires 0 <= lo < p && 0 <= lo' < p
    ensures lo + p * hi <= lo' + p * hi' <==> hi < hi' || (hi == hi' && lo <= lo')
  {
    if hi < hi' { MulLt(p, hi, hi'); }
    if hi' < hi { MulLt(p, hi', hi); }
  }

  /** The comparison of two double-width numbers by halves, the upper one first. */
  method LessOrEqual(a: array<Word>, b: array<Word>, n: nat) returns (le: bool)
    requires a.Length == b.Length == 2 * n
    ensures le <==> Val(a, 0, 2 * n) <= Val(b, 0, 2 * n)
  {
    hide Value, Pow;
    Halves(a, n); Halves(b, n);
    CompareHalves(Pow(n), Val(a, 0, n), Val(a, n, n), Val(b, 0, n), Val(b, n, n));
    var hi := Cmp(a, n, b, n, n);
    var lo := Cmp(a, 0, b, 0, n);
    le := hi < 0 || (hi == 0 && lo <= 0);
  }

  lemma SubHalves(p: int, lo: int, hi: int, mlo: int, mhi: int, lo': int, hi': int, b: int, k: int)
    requires p > 0 && mlo + p * mhi <= lo + p * hi && 0 <= lo' < p && 0 <= hi' < p && 0 <= hi < p && 0 <= mhi < p
    requires 0 <= mlo < p && 0 <= lo < p && (b == 0 || b == 1)
    requires lo' == lo - mlo + p * b && hi' == hi - b - mhi + p * k
    ensures lo' + p * hi' == (lo + p * hi) - (mlo + p * mhi)
  {
    MulDistrib(p, hi - b, mhi); MulDistrib(p, hi, b);
    if k < 0 { MulLe(p, k, -1); }
    if k > 0 {
      MulLe(p, 1, k);
      MulLe(p, hi - b - mhi, -1);
    }
    assert k == 0;
  }

  /** The subtraction of the shifted modulus, half by half, with the borrow taken from the
      upper half by subtracting the number one kept in `one`. */
  method SubWide(a: array<Word>, m: array<Word>, one: array<Word>, n: nat)
    requires a.Length == m.Length == 2 * n && one.Length == n && a != m && a != one && Val(one, 0, n) == 1
    requires Val(m, 0, 2 * n) <= Val(a, 0, 2 * n)
    modifies a
    ensures Val(a, 0, 2 * n) == old(Val(a, 0, 2 * n)) - Val(m, 0, 2 * n)
  {
    hide Value, Pow;
    ghost var p: int, lo: int, hi: int, mlo: int, mhi: int := Pow(n), Val(a, 0, n), Val(a, n, n), Val(m, 0, n), Val(m, n, n);
    Halves(a, n); Halves(m, n);
    label L0:
    var borrow := Sub(a, 0, a, 0, m, 0, n);
    assert a[n..n + n] == old@L0(a[n..n + n]);
    ghost var lo' := Val(a, 0, n);
    var b1 := 0;
    label L1:
    if borrow != 0 {
      b1 := Sub(a, n, a, n, one, 0, n);
      assert a[0..n] == old@L1(a[0..n]);
    }
    label L2:
    var b2 := Sub(a, n, a, n, m, n, n);
    assert a[0..n] == old@L2(a[0..n]);
    Halves(a, n);
    MulDistrib(p, b1, b2);
    SubHalves(p, lo, hi, mlo, mhi, Val(a, 0, n), Val(a, n, n), borrow, b1 as int + b2 as int);
  }

  lemma HalveHalves(p: int, lo: int, hi: int, lo': int, hi': int)
    requires p > 0 && p % 2 == 0 && 0 <= lo && 0 <= hi
    requires hi' == hi / 2 && 2 * lo' == 2 * (lo / 2) + p * (hi % 2)
    ensures lo' + p * hi' == (lo + p * hi) / 2
  {
    var h := hi / 2;
    assert p * hi == 2 * (p * h) + p * (hi % 2) by { MulDistrib(p, 2 * h, hi % 2); MulAssoc(p, 2, h); }
    if hi % 2 == 1 { assert p * 1 == p; }
  }

  /** A shift of both halves; the bit that leaves the upper half enters the lower one. */
  method HalveWide(m: array<Word>, n: nat)
    requires m.Length == 2 * n && n > 0
    modifies m
    ensures Val(m, 0, 2 * n) == old(Val(m, 0, 2 * n)) / 2
  {
    hide Value, Pow;
    Halves(m, n);
    ghost var lo, hi := Val(m, 0, n), Val(m, n, n);
    M.ValueParity(m[n..n + n]);
    M.PowEven(n);
    var carry := (m[n] % 2) * TOP_BIT;
    label L0:
    RShift1(m, n, n);
    assert m[0..n] == old@L0(m[0..n]);
    label L1:
    RShift1(m, 0, n);
    assert m[n..n + n] == old@L1(m[n..n + n]);
    M.TopDigit(m[0..n]);
    label L2:
    ghost var s := m[0..n];
    var digit: Word := m[n - 1] as int + carry;
    m[n - 1] := digit;
    assert m[0..n] == s[n - 1 := digit];
    assert m[n..n + n] == old@L2(m[n..n + n]);
    if hi % 2 == 1 {
      M.SetTop(s, digit);
    } else {
      assert s[n - 1 := digit] == s;
    }
    Halves(m, n);
    HalveHalves(Pow(n), lo, hi, Val(m, 0, n), Val(m, n, n));
  }

  // ---------------------------------------------------------------- the whole reduction

  function Bits(x: nat): nat {
    if x == 0 then 0 else 1 + Bits(x / 2)
  }

  lemma {:induction false} BitsLength(x: nat)
    ensures BitLength(x, Bits(x))
  {
    if x > 0 {
      BitsLength(x / 2);
      assert Bits(x) == 1 + Bits(x / 2) && Two(Bits(x)) == 2 * Two(Bits(x / 2));
    }
  }

  /** The shifted modulus fits in 2n digits. */
  ghost predicate Fits(product: nat, p: nat, n: nat) {
    product < Two(Bits(p)) * Pow(n)
  }

  /** Operands below the modulus always fit, and so do all when the modulus has its top bit set. */
  lemma FitsReduced(x: nat, y: nat, p: nat, n: nat)
    requires x < p && y < p < Pow(n)
    ensures Fits(x * y, p, n)
  {
    hide Two, Pow, Bits;
    BitsLength(p);
    MulLe(x, y, Pow(n));
    MulLt(Pow(n), x, Two(Bits(p)));
  }

  lemma FitsTopBit(x: nat, y: nat, p: nat, n: nat)
    requires x < Pow(n) && y < Pow(n) && p < Pow(n) <= 2 * p
    ensures Fits(x * y, p, n)
  {
    hide Pow, Bits;
    BitsLength(p);
    PowTwo(n);
    if Bits(p) < 64 * n { TwoMono(Bits(p), 64 * n - 1); }
    TwoMono(64 * n, Bits(p));
    MulLe(x, y, Pow(n));
    MulLt(Pow(n), x, Two(Bits(p)));
  }

  /** The bit shift of the modulus stays within 64n bits. */
  lemma ShiftBound(product: nat, pbits: nat, p: nat, mbits: nat, n: nat)
    requires BitLength(product, pbits) && BitLength(p, mbits) && Fits(product, p, n)
    ensures pbits <= mbits + 64 * n
  {
    hide Pow, Bits;
    BitsLength(p);
    BitLengthUnique(p, mbits, Bits(p));
    PowTwo(n);
    TwoAdd(mbits, 64 * n);
    if pbits > mbits + 64 * n { TwoMono(mbits + 64 * n, pbits - 1); }
  }

  /** A number below the first shifted modulus doubled. */
  lemma StartBound(product: nat, pbits: nat, p: nat, mbits: nat)
    requires BitLength(product, pbits) && BitLength(p, mbits) && 0 < p && mbits <= pbits
    ensures product < 2 * (p * Two(pbits - mbits))
  {
    var s := pbits - mbits;
    assert mbits > 0;
    TwoAdd(mbits, s);
    MulLe(Two(s), Two(mbits), 2 * p);
    assert Two(s) * (2 * p) == 2 * (p * Two(s));
  }

  /** The bits of a product from its two halves, as the source finds them. */
  method ProductBits(a: array<Word>, n: nat) returns (bits: nat)
    requires a.Length == 2 * n
    ensures BitLength(Val(a, 0, 2 * n), bits)
  {
    hide Value, Pow, Two, BitLength;
    Halves(a, n);
    bits := NumBits(a, n, n);
    if bits != 0 {
      HighBits(Val(a, 0, n), Val(a, n, n), bits, n);
      bits := bits + n * 64;
    } else {
      BitsZero(Val(a, n, n));
      bits := NumBits(a, 0, n);
    }
  }

  lemma BitsZero(x: nat)
    requires BitLength(x, 0)
    ensures x == 0
  {}

  lemma HighBits(lo: nat, hi: nat, bits: nat, n: nat)
    requires lo < Pow(n) && bits > 0 && BitLength(hi, bits)
    ensures BitLength(lo + Pow(n) * hi, bits + n * 64)
  {
    hide Pow, Two;
    PowTwo(n);
    TwoAdd(64 * n, bits); TwoAdd(64 * n, bits - 1);
    MulLe(Pow(n), Two(bits - 1), hi);
    MulLt(Pow(n), hi, Two(bits));
  }

  lemma ShiftParts(z: seq<Word>, mid: seq<Word>, hi: seq<Word>, v: nat)
    requires Value(z) == 0 && Value(mid) + Pow(|mid|) * Value(hi) == v
    ensures Value(z + mid + hi) == Pow(|z|) * v
  {
    hide Value, Pow;
    ValueConcat(z, mid + hi);
    ValueConcat(mid, hi);
    assert z + mid + hi == z + (mid + hi);
  }

  lemma TopPart(hi: seq<Word>)
    requires forall k :: 0 < k < |hi| ==> hi[k] == 0
    ensures Value(hi) == if hi == [] then 0 else hi[0]
  {
    if hi != [] {
      assert forall k :: 0 <= k < |hi[1..]| ==> hi[1..][k] == hi[k + 1];
      ValueZeros(hi[1..]);
    }
  }

  lemma ShiftTwo(p: int, d: nat, b: nat)
    ensures Pow(d) * (p * Two(b)) == p * Two(64 * d + b)
  {
    hide Two, Pow;
    PowTwo(d);
    TwoAdd(64 * d, b);
    var x, y := Pow(d), Two(b);
    assert x * (p * y) == p * (x * y);
  }

  /** The modulus moved up by `shift` bits: whole digits by placement, the rest by a shift
      whose carry lands in the digit above. */
  method ShiftedModulus(m: array<Word>, n: nat, shift: nat) returns (mm: array<Word>)
    requires m.Length == n && n > 0 && shift <= 64 * n
    ensures fresh(mm) && mm.Length == 2 * n && Val(mm, 0, 2 * n) == Val(m, 0, n) * Two(shift)
  {
    hide Value, Pow, Two;
    mm := new Word[2 * n];
    Clear(mm, 0, n);
    Clear(mm, n, n);
    var d, b := shift / 64, shift % 64;
    assert forall k :: 0 <= k < 2 * n ==> mm[k] == 0;
    PlaceModulus(mm, m, n, d, b);
    ShiftTwo(Val(m, 0, n), d, b);
  }

  method PlaceModulus(mm: array<Word>, m: array<Word>, n: nat, d: nat, b: nat)
    requires m.Length == n && mm.Length == 2 * n && mm != m && b < 64 && (if b == 0 then d <= n else d < n)
    requires forall k :: 0 <= k < 2 * n ==> mm[k] == 0
    modifies mm
    ensures Val(mm, 0, 2 * n) == Pow(d) * (Val(m, 0, n) * Two(b))
  {
    hide Value, Pow, Two;
    ghost var v := Val(m, 0, n) * Two(b);
    var carry := 0;
    if b != 0 {
      carry := LShift(mm, d, m, 0, b, n);
      mm[d + n] := carry;
    } else {
      Set(mm, d, m, 0, n);
      assert mm[d..d + n] == At(mm, d, n) == m[0..n];
      TwoStart(0);
    }
    ghost var s := mm[0..2 * n];
    assert s[d..d + n] == mm[d..d + n];
    ShiftPlaced(s, d, n, carry, v);
  }

  lemma ShiftPlaced(s: seq<Word>, d: nat, n: nat, carry: Word, v: nat)
    requires |s| == 2 * n && d <= n && (d < n ==> s[d + n] == carry) && (d == n ==> carry == 0)
    requires Value(s[d..d + n]) + Pow(n) * carry == v
    requires forall k :: (0 <= k < d || d + n < k < |s|) ==> s[k] == 0
    ensures Value(s) == Pow(d) * v
  {
    hide Value, Pow;
    var z, mid, hi := s[0..d], s[d..d + n], s[d + n..2 * n];
    assert s == z + mid + hi;
    ValueZeros(z);
    TopPart(hi);
    ShiftParts(z, mid, hi, v);
  }

  /** s is the shift that is left; -1 once the modulus has been halved below itself. */
  ghost predicate Reducing(x: nat, m: nat, s: int, p: nat, product: nat)
    requires p > 0
  {
    && -1 <= s
    && Cong(x, product, p)
    && if s < 0 then x < p && m == p / 2 else m == p * Two(s) && x < 2 * m
  }

  /** One round: subtract the shifted modulus if it goes in, then halve it. */
  lemma ReduceRound(x: nat, m: nat, s: nat, p: nat, product: nat)
    requires p > 0 && Reducing(x, m, s, p, product)
    ensures Reducing(if m <= x then x - m else x, m / 2, s - 1, p, product)
  {
    hide Cong;
    if m <= x {
      var k: int := Two(s);
      assert p * (-k) == -(p * k);
      CongFrom(x - m, x, -k, p);
      CongTrans(x - m, x, product, p);
    }
    if s > 0 { MulAssoc(p, 2, Two(s - 1)); assert p * Two(s) == 2 * (p * Two(s - 1)); }
  }

  /** The half-width test of the loop is exact. */
  lemma LoopTest(m: nat, lo: nat, hi: nat, s: int, p: nat, mbits: nat, n: nat, x: nat, product: nat)
    requires p > 0 && Reducing(x, m, s, p, product) && m == lo + Pow(n) * hi && lo < Pow(n)
    requires BitLength(p, mbits) && mbits <= 64 * n
    ensures s >= 0 <==> mbits + s > 64 * n || lo >= p
  {
    hide *;
    if s >= 0 {
      if mbits + s <= 64 * n { ShiftedLow(m, lo, hi, s, p, mbits, n, x, product); }
    } else {
      ShiftedOut(m, s, p, x, product);
      MulLe(Pow(n), 0, hi);
      BitsOrder(p, mbits, n);
    }
  }

  lemma ShiftedOut(m: nat, s: int, p: nat, x: nat, product: nat)
    requires p > 0 && Reducing(x, m, s, p, product) && s < 0
    ensures m < p && s == -1
  {
    hide Cong;
  }

  lemma BitsOrder(p: nat, mbits: nat, n: nat)
    requires BitLength(p, mbits) && p > 0
    ensures mbits > 0
  {}

  lemma ShiftedLow(m: nat, lo: nat, hi: nat, s: nat, p: nat, mbits: nat, n: nat, x: nat, product: nat)
    requires p > 0 && Reducing(x, m, s, p, product) && m == lo + Pow(n) * hi && lo < Pow(n)
    requires BitLength(p, mbits) && mbits + s <= 64 * n
    ensures lo >= p
  {
    hide Two, Pow, Cong;
    PowTwo(n);
    TwoAdd(mbits, s);
    MulLt(Two(s), p, Two(mbits));
    TwoMono(mbits + s, 64 * n);
    if hi > 0 { MulLe(Pow(n), 1, hi); }
    MulLe(p, 1, Two(s));
  }

  /** For every modulus that the shifted copy fits above, left * right modulo it. */
  method ModMult(result: array<Word>, left: array<Word>, right: array<Word>, m: array<Word>, n: nat)
    requires 0 < n < 0x4000_0000 && result.Length == left.Length == right.Length == m.Length == n && result != m
    requires Val(m, 0, n) > 0 && Fits(Val(left, 0, n) * Val(right, 0, n), Val(m, 0, n), n)
    modifies result
    ensures Val(result, 0, n) == (old(Val(left, 0, n)) * old(Val(right, 0, n))) % Val(m, 0, n)
  {
    hide *;
    ghost var p, goal := Val(m, 0, n), Val(left, 0, n) * Val(right, 0, n);
    var mbits := NumBits(m, 0, n);
    var product := new Word[2 * n];
    Mult(product, left, right, n);
    var pbits := ProductBits(product, n);
    if pbits < mbits {
      BelowModulus(goal, pbits, p, mbits);
      CopyLow(result, product, n, m);
      return;
    }
    ShiftBound(goal, pbits, p, mbits, n);
    StartBound(goal, pbits, p, mbits);
    var mm := ShiftedModulus(m, n, pbits - mbits);
    SetOne(result, n);
    Starts(goal, Val(mm, 0, 2 * n), pbits - mbits, p);
    SubtractMultiples(product, mm, result, m, n, pbits, mbits, goal);
    CopyLow(result, product, n, m);
  }

  /** The loop: `pbits` counts down, and `one` holds the number one. */
  method SubtractMultiples(product: array<Word>, mm: array<Word>, one: array<Word>, m: array<Word>, n: nat, start: nat,
                           ghost mbits: nat, ghost goal: nat)
    requires n > 0 && product.Length == mm.Length == 2 * n && one.Length == m.Length == n && product != mm
             && {one, m} !! {product, mm}
    requires Val(m, 0, n) > 0 && BitLength(Val(m, 0, n), mbits) && mbits <= 64 * n && mbits <= start
             && Val(one, 0, n) == 1
    requires Reducing(Val(product, 0, 2 * n), Val(mm, 0, 2 * n), start - mbits, Val(m, 0, n), goal)
    modifies product, mm
    ensures Val(product, 0, 2 * n) < Val(m, 0, n) && Val(product, 0, 2 * n) == goal % Val(m, 0, n)
  {
    hide *;
    ghost var p := Val(m, 0, n);
    var pbits: int := start;
    while true
      invariant pbits - mbits >= -1
      invariant Reducing(Val(product, 0, 2 * n), Val(mm, 0, 2 * n), pbits - mbits, p, goal)
      decreases pbits - mbits + 1
    {
      ghost var x, y, s := Val(product, 0, 2 * n), Val(mm, 0, 2 * n), pbits - mbits;
      Halves(mm, n);
      LoopTest(y, Val(mm, 0, n), Val(mm, n, n), s, p, mbits, n, x, goal);
      var low := Cmp(mm, 0, m, 0, n);
      if !(pbits > n * 64 || low >= 0) { break; }
      var le := LessOrEqual(mm, product, n);
      ReduceRound(x, y, s, p, goal);
      if le {
        SubWide(product, mm, one, n);
      }
      HalveWide(mm, n);
      pbits := pbits - 1;
    }
    Reduced(Val(product, 0, 2 * n), Val(mm, 0, 2 * n), pbits - mbits, p, goal);
  }

  lemma Starts(x: nat, m: nat, s: nat, p: nat)
    requires p > 0 && m == p * Two(s) && x < 2 * m
    ensures Reducing(x, m, s, p, x)
  {}

  lemma Reduced(x: nat, m: nat, s: int, p: nat, product: nat)
    requires p > 0 && Reducing(x, m, s, p, product) && s < 0
    ensures x < p && x == product % p
  {
    CongReduced(x, product, p);
  }

  lemma BelowModulus(x: nat, xbits: nat, p: nat, pbits: nat)
    requires BitLength(x, xbits) && BitLength(p, pbits) && xbits < pbits
    ensures x < p && x % p == x
  {
    TwoMono(xbits, pbits - 1);
    DivModUnique(x, p, 0, x);
  }

  method SetOne(r: array<Word>, n: nat)
    requires r.Length == n && n > 0
    modifies r
    ensures Val(r, 0, n) == 1
  {
    hide Value, Pow;
    Clear(r, 0, n);
    r[0] := 1;
    TopPart(r[0..n]);
  }

  /** A product below the modulus lies in its lower half. */
  method CopyLow(r: array<Word>, a: array<Word>, n: nat, ghost m: array<Word>)
    requires r.Length == n && a.Length == 2 * n && r != a && m.Length == n && Val(a, 0, 2 * n) < Val(m, 0, n)
    modifies r
    ensures Val(r, 0, n) == Val(a, 0, 2 * n)
  {
    hide Value, Pow;
    Halves(a, n);
    ValueBound(m[0..n]);
    if Val(a, n, n) > 0 { MulLe(Pow(n), 1, Val(a, n, n)); }
    Set(r, 0, a, 0, n);
    assert r[0..n] == At(r, 0, n);
  }
}
