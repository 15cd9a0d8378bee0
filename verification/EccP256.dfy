/** The fast reduction modulo the prime of secp256r1, section D.2.3 of FIPS 186-4. */
module EccP256 {
  import opened Arith
  import opened EccDigits
  import opened EccVli
  import opened EccMult

  const PRIME: int := 0xFFFFFFFF00000001000000000000000000000000FFFFFFFFFFFFFFFFFFFFFFFF

  /** The modulus of secp256r1. */
  lemma PrimeFormula()
    ensures PRIME == Two(256) - Two(224) + Two(192) + Two(96) - 1
  {
    assert Two(8) == 256;
    hide Two;
    TwoSum(8, 8, 0x100, 0x100);
    TwoSum(16, 16, 0x10000, 0x10000);
    TwoSum(32, 32, 0x100000000, 0x100000000);
    TwoSum(64, 32, 0x10000000000000000, 0x100000000);
    TwoSum(96, 96, 0x1000000000000000000000000, 0x1000000000000000000000000);
    TwoSum(192, 32, 0x1000000000000000000000000000000000000000000000000, 0x100000000);
    TwoSum(224, 32, 0x100000000000000000000000000000000000000000000000000000000, 0x100000000);
  }

  lemma TwoSum(j: nat, k: nat, a: int, b: int)
    requires Two(j) == a && Two(k) == b
    ensures Two(j + k) == a * b
  {
    TwoAdd(j, k);
  }

  /** 2 to the power 256. */
  const WIDE: int := 0x1_0000000000000000000000000000000000000000000000000000000000000000

  /** The lower and the upper half of a digit, and two halves put together. */
  function Lo(x: Word): (r: int) ensures 0 <= r < HALF { x % HALF }

  function Hi(x: Word): (r: int) ensures 0 <= r < HALF && x == Lo(x) + HALF * r { x / HALF }

  function Pack(lo: int, hi: int): Word
    requires 0 <= lo < HALF && 0 <= hi < HALF
  {
    lo + HALF * hi
  }

  function Num4(a: int, b: int, c: int, d: int): int {
    a + BASE * b + BASE * BASE * c + BASE * BASE * BASE * d
  }

  lemma Value4(s: seq<Word>)
    requires |s| == 4
    ensures Value(s) == Num4(s[0], s[1], s[2], s[3]) && Pow(4) == WIDE
  {
    assert s[1..] == [s[1], s[2], s[3]] && s[1..][1..] == [s[2], s[3]] && s[1..][1..][1..] == [s[3]];
    assert Value([s[3]]) == s[3];
    assert Value([s[2], s[3]]) == s[2] + BASE * s[3];
    assert Pow(1) == BASE && Pow(2) == BASE * BASE;
    assert Pow(3) == BASE * (BASE * BASE);
  }

  lemma Value8(s: seq<Word>)
    requires |s| == 8
    ensures Value(s) == Num4(s[0], s[1], s[2], s[3]) + WIDE * Num4(s[4], s[5], s[6], s[7])
  {
    ValueSplit(s, 4);
    Value4(s[..4]); Value4(s[4..]);
  }

  // The nine terms of the reduction, from the digits of the product.
  function T0(w: seq<Word>): int requires |w| == 8 { Num4(w[0], w[1], w[2], w[3]) }
  function S1(w: seq<Word>): int requires |w| == 8 { Num4(0, Pack(0, Hi(w[5])), w[6], w[7]) }
  function S2(w: seq<Word>): int requires |w| == 8 { Num4(0, Pack(0, Lo(w[6])), Pack(Hi(w[6]), Lo(w[7])), Hi(w[7])) }
  function S3(w: seq<Word>): int requires |w| == 8 { Num4(w[4], Lo(w[5]), 0, w[7]) }
  function S4(w: seq<Word>): int requires |w| == 8 {
    Num4(Pack(Hi(w[4]), Lo(w[5])), Pack(Hi(w[5]), Hi(w[6])), w[7], Pack(Hi(w[6]), Lo(w[4])))
  }
  function D1(w: seq<Word>): int requires |w| == 8 {
    Num4(Pack(Hi(w[5]), Lo(w[6])), Hi(w[6]), 0, Pack(Lo(w[4]), Lo(w[5])))
  }
  function D2(w: seq<Word>): int requires |w| == 8 { Num4(w[6], w[7], 0, Pack(Hi(w[4]), Hi(w[5]))) }
  function D3(w: seq<Word>): int requires |w| == 8 {
    Num4(Pack(Hi(w[6]), Lo(w[7])), Pack(Hi(w[7]), Lo(w[4])), Pack(Hi(w[4]), Lo(w[5])), Pack(0, Lo(w[6])))
  }
  function D4(w: seq<Word>): int requires |w| == 8 { Num4(w[7], Pack(0, Hi(w[4])), w[5], Pack(0, Hi(w[6]))) }

  function Reduced(w: seq<Word>): int
    requires |w| == 8
  {
    T0(w) + 2 * S1(w) + 2 * S2(w) + S3(w) + S4(w) - D1(w) - D2(w) - D3(w) - D4(w)
  }

  /** The quotient by which the product and its replacement differ, from the 32-bit words of
      the upper half. */
  function Quotient(l4: int, h4: int, l5: int, h5: int, l6: int, h6: int, l7: int, h7: int): int {
    0x1 * l4 +
    0x100000001 * h4 +
    0x10000000100000000 * l5 +
    0x100000000ffffffffffffffff * h5 +
    0x100000000fffffffffffffffeffffffff * l6 +
    0x100000000fffffffffffffffefffffffeffffffff * h6 +
    0x100000000fffffffffffffffefffffffefffffffeffffffff * l7 +
    0x100000000fffffffffffffffefffffffefffffffeffffffff00000000 * h7
  }

  lemma Identity(t0: int, l4: int, h4: int, l5: int, h5: int, l6: int, h6: int, l7: int, h7: int)
    ensures t0 + WIDE * Num4(l4 + HALF * h4, l5 + HALF * h5, l6 + HALF * h6, l7 + HALF * h7) ==
            t0 + 2 * Num4(0, HALF * h5, l6 + HALF * h6, l7 + HALF * h7)
            + 2 * Num4(0, HALF * l6, h6 + HALF * l7, h7)
            + Num4(l4 + HALF * h4, l5, 0, l7 + HALF * h7)
            + Num4(h4 + HALF * l5, h5 + HALF * h6, l7 + HALF * h7, h6 + HALF * l4)
            - Num4(h5 + HALF * l6, h6, 0, l4 + HALF * l5)
            - Num4(l6 + HALF * h6, l7 + HALF * h7, 0, h4 + HALF * h5)
            - Num4(h6 + HALF * l7, h7 + HALF * l4, h4 + HALF * l5, HALF * l6)
            - Num4(l7 + HALF * h7, HALF * h4, l5 + HALF * h5, HALF * h6)
            + PRIME * Quotient(l4, h4, l5, h5, l6, h6, l7, h7)
  {}

  lemma Halves(w: seq<Word>, l4: int, h4: int, l5: int, h5: int, l6: int, h6: int, l7: int, h7: int)
    requires |w| == 8 && l4 == Lo(w[4]) && h4 == Hi(w[4]) && l5 == Lo(w[5]) && h5 == Hi(w[5])
    requires l6 == Lo(w[6]) && h6 == Hi(w[6]) && l7 == Lo(w[7]) && h7 == Hi(w[7])
    ensures S1(w) == Num4(0, HALF * h5, l6 + HALF * h6, l7 + HALF * h7)
    ensures S2(w) == Num4(0, HALF * l6, h6 + HALF * l7, h7)
    ensures S3(w) == Num4(l4 + HALF * h4, l5, 0, l7 + HALF * h7)
    ensures S4(w) == Num4(h4 + HALF * l5, h5 + HALF * h6, l7 + HALF * h7, h6 + HALF * l4)
    ensures D1(w) == Num4(h5 + HALF * l6, h6, 0, l4 + HALF * l5)
    ensures D2(w) == Num4(l6 + HALF * h6, l7 + HALF * h7, 0, h4 + HALF * h5)
    ensures D3(w) == Num4(h6 + HALF * l7, h7 + HALF * l4, h4 + HALF * l5, HALF * l6)
    ensures D4(w) == Num4(l7 + HALF * h7, HALF * h4, l5 + HALF * h5, HALF * h6)
    ensures Num4(w[4], w[5], w[6], w[7]) == Num4(l4 + HALF * h4, l5 + HALF * h5, l6 + HALF * h6, l7 + HALF * h7)
  {
    hide Num4, Lo, Hi;
  }

  /** The combination of terms is congruent to the 512-bit product: every 32-bit word of the
      upper half is replaced by an equal word modulo the prime. */
  lemma ReducedCong(w: seq<Word>)
    requires |w| == 8
    ensures Cong(Value(w), Reduced(w), PRIME)
  {
    hide Value, Num4, Quotient, Cong, Lo, Hi, Pack, T0, S1, S2, S3, S4, D1, D2, D3, D4;
    var l4, h4, l5, h5, l6, h6, l7, h7 := Lo(w[4]), Hi(w[4]), Lo(w[5]), Hi(w[5]), Lo(w[6]), Hi(w[6]), Lo(w[7]), Hi(w[7]);
    Value8(w);
    T0Is(w);
    Halves(w, l4, h4, l5, h5, l6, h6, l7, h7);
    Identity(T0(w), l4, h4, l5, h5, l6, h6, l7, h7);
    CongFrom(Value(w), Reduced(w), Quotient(l4, h4, l5, h5, l6, h6, l7, h7), PRIME);
  }

  lemma T0Is(w: seq<Word>)
    requires |w| == 8
    ensures T0(w) == Num4(w[0], w[1], w[2], w[3])
  {}

  const CURVE_P: seq<Word> := [0xFFFFFFFFFFFFFFFF, 0x00000000FFFFFFFF, 0x0000000000000000, 0xFFFFFFFF00000001]

  lemma CurvePValue()
    ensures Value(CURVE_P) == PRIME
  {
    Value4(CURVE_P);
  }

  method SetDigits(tmp: array<Word>, a: Word, b: Word, c: Word, d: Word)
    requires tmp.Length == 4
    modifies tmp
    ensures Val(tmp, 0, 4) == Num4(a, b, c, d)
  {
    tmp[0], tmp[1], tmp[2], tmp[3] := a, b, c, d;
    assert tmp[0..4] == [a, b, c, d];
    Value4(tmp[0..4]);
  }

  /** Adding twice the number in `tmp`: a shift by one bit and an addition, with both carries. */
  method AddTwice(r: array<Word>, tmp: array<Word>, carry: int) returns (c: int)
    requires r.Length == tmp.Length == 4 && r != tmp
    modifies r, tmp
    ensures Val(r, 0, 4) + WIDE * c == old(Val(r, 0, 4)) + WIDE * carry + 2 * old(Val(tmp, 0, 4))
    ensures old(tmp[0]) == 0 ==> tmp[0] == 0
  {
    hide Value, Pow, Two, Num4;
    ghost var t := tmp[0..4];
    Value4(t);
    TwoOne();
    var c1 := LShift(tmp, 0, tmp, 0, 1, 4);
    ghost var t' := tmp[0..4];
    if t[0] == 0 { LowDigitStaysZero(t, t', c1); }
    var c2 := Add(r, 0, r, 0, tmp, 0, 4);
    c := carry + c1 + c2;
  }

  lemma TwoOne()
    ensures Two(1) == 2
  {}

  lemma LowDigitStaysZero(t: seq<Word>, t': seq<Word>, c: Word)
    requires |t| == |t'| == 4 && Value(t') + WIDE * c == Value(t) * 2 && t[0] == 0
    ensures t'[0] == 0
  {
    hide Value;
    Value4(t); Value4(t');
    MultipleOfBase(t'[0], t[1], t[2], t[3], t'[1], t'[2], t'[3], c);
  }

  lemma MultipleOfBase(x: int, a: int, b: int, c: int, a': int, b': int, c': int, carry: int)
    requires 0 <= x < BASE && Num4(x, a', b', c') + WIDE * carry == Num4(0, a, b, c) * 2
    ensures x == 0
  {
    var k := 2 * (a + BASE * b + BASE * BASE * c) - (a' + BASE * b' + BASE * BASE * c') - BASE * BASE * BASE * carry;
    assert x == BASE * k;
    hide Num4;
    if k > 0 { MulLe(BASE, 1, k); }
    if k < 0 { MulLe(BASE, k, -1); }
  }

  method AddOnce(r: array<Word>, tmp: array<Word>, carry: int) returns (c: int)
    requires r.Length == tmp.Length == 4 && r != tmp
    modifies r
    ensures Val(r, 0, 4) + WIDE * c == old(Val(r, 0, 4)) + WIDE * carry + Val(tmp, 0, 4)
  {
    hide Value, Pow, Num4;
    Value4(tmp[0..4]);
    var c1 := Add(r, 0, r, 0, tmp, 0, 4);
    c := carry + c1;
  }

  method SubOnce(r: array<Word>, tmp: array<Word>, carry: int) returns (c: int)
    requires r.Length == tmp.Length == 4 && r != tmp
    modifies r
    ensures Val(r, 0, 4) + WIDE * c == old(Val(r, 0, 4)) + WIDE * carry - Val(tmp, 0, 4)
  {
    hide Value, Pow, Num4;
    Value4(tmp[0..4]);
    var b := Sub(r, 0, r, 0, tmp, 0, 4);
    c := carry - b;
  }

  /** The terms t, s1, s2, s3 and s4.  The second doubled term relies on the first shift having
      left a zero in the lowest digit. */
  method AddTerms(r: array<Word>, tmp: array<Word>, w: array<Word>) returns (carry: int)
    requires r.Length == tmp.Length == 4 && w.Length == 8 && r != tmp && r != w && tmp != w
    modifies r, tmp
    ensures Val(r, 0, 4) + WIDE * carry == T0(w[..]) + 2 * S1(w[..]) + 2 * S2(w[..]) + S3(w[..]) + S4(w[..])
  {
    hide Value, Num4, Lo, Hi;
    ghost var p := w[..];
    Set(r, 0, w, 0, 4);
    assert r[0..4] == p[0..4] && p[0..4] == [p[0], p[1], p[2], p[3]];
    Value4(r[0..4]);
    assert Val(r, 0, 4) == T0(p);
    SetDigits(tmp, 0, Pack(0, Hi(w[5])), w[6], w[7]);
    LowDigit(tmp[0..4], Pack(0, Hi(w[5])), w[6], w[7]);
    carry := AddTwice(r, tmp, 0);
    tmp[1], tmp[2], tmp[3] := Pack(0, Lo(w[6])), Pack(Hi(w[6]), Lo(w[7])), Hi(w[7]);
    Value4(tmp[0..4]);
    assert Val(tmp, 0, 4) == S2(p);
    carry := AddTwice(r, tmp, carry);
    SetDigits(tmp, w[4], Lo(w[5]), 0, w[7]);
    carry := AddOnce(r, tmp, carry);
    SetDigits(tmp, Pack(Hi(w[4]), Lo(w[5])), Pack(Hi(w[5]), Hi(w[6])), w[7], Pack(Hi(w[6]), Lo(w[4])));
    carry := AddOnce(r, tmp, carry);
  }

  lemma LowDigit(s: seq<Word>, b: int, c: int, d: int)
    requires |s| == 4 && Value(s) == Num4(0, b, c, d)
    ensures s[0] == 0
  {
    Value4(s);
    var k: int := b + BASE * c + BASE * BASE * d - s[1] as int - BASE * s[2] as int - BASE * BASE * s[3] as int;
    assert s[0] == BASE * k;
  }

  /** The terms d1, d2, d3 and d4. */
  method SubTerms(r: array<Word>, tmp: array<Word>, w: array<Word>, carry0: int) returns (carry: int)
    requires r.Length == tmp.Length == 4 && w.Length == 8 && r != tmp && r != w && tmp != w
    modifies r, tmp
    ensures Val(r, 0, 4) + WIDE * carry == old(Val(r, 0, 4)) + WIDE * carry0 - D1(w[..]) - D2(w[..]) - D3(w[..]) - D4(w[..])
  {
    hide Value, Num4, Lo, Hi;
    SetDigits(tmp, Pack(Hi(w[5]), Lo(w[6])), Hi(w[6]), 0, Pack(Lo(w[4]), Lo(w[5])));
    carry := SubOnce(r, tmp, carry0);
    SetDigits(tmp, w[6], w[7], 0, Pack(Hi(w[4]), Hi(w[5])));
    carry := SubOnce(r, tmp, carry);
    SetDigits(tmp, Pack(Hi(w[6]), Lo(w[7])), Pack(Hi(w[7]), Lo(w[4])), Pack(Hi(w[4]), Lo(w[5])), Pack(0, Lo(w[6])));
    carry := SubOnce(r, tmp, carry);
    SetDigits(tmp, w[7], Pack(0, Hi(w[4])), w[5], Pack(0, Hi(w[6])));
    carry := SubOnce(r, tmp, carry);
  }

  /** `vli_mmod_fast`: for every 512-bit number the loops end with its remainder. */
  method MmodFast(r: array<Word>, w: array<Word>, curveP: array<Word>)
    requires r.Length == curveP.Length == 4 && w.Length == 8 && r != w && r != curveP && curveP[..] == CURVE_P
    modifies r
    ensures Val(r, 0, 4) == Val(w, 0, 8) % PRIME
  {
    hide Value, Num4, Cong, Reduced;
    ghost var p := w[..];
    assert w[0..8] == p && curveP[0..4] == CURVE_P;
    CurvePValue();
    ReducedCong(p);
    var tmp := new Word[4];
    var carry := AddTerms(r, tmp, w);
    carry := SubTerms(r, tmp, w, carry);
    ReducedIs(p);
    Small(r[0..4]);
    Normalize(r, curveP, carry, Value(p));
  }

  /** Adding or subtracting the prime until the number is between zero and the prime. */
  method Normalize(r: array<Word>, curveP: array<Word>, carry0: int, ghost x: int)
    requires r.Length == curveP.Length == 4 && r != curveP && curveP[..] == CURVE_P && Val(r, 0, 4) < WIDE
    requires Cong(x, Val(r, 0, 4) + WIDE * carry0, PRIME)
    modifies r
    ensures Val(r, 0, 4) == x % PRIME
  {
    hide Value, Num4, Cong;
    assert curveP[0..4] == CURVE_P;
    CurvePValue();
    var carry := carry0;
    if carry < 0 {
      while carry < 0
        invariant curveP[0..4] == CURVE_P && Cong(x, Val(r, 0, 4) + WIDE * carry, PRIME)
        invariant Val(r, 0, 4) < WIDE && Val(r, 0, 4) + WIDE * carry < PRIME
        decreases -(Val(r, 0, 4) + WIDE * carry)
      {
        ghost var t := Val(r, 0, 4) + WIDE * carry;
        carry := AddOnce(r, curveP, carry);
        Small(r[0..4]);
        ShiftCong(x, t, 1);
      }
    } else {
      var c := Cmp(curveP, 0, r, 0, 4);
      while carry != 0 || c != 1
        invariant curveP[0..4] == CURVE_P && Cong(x, Val(r, 0, 4) + WIDE * carry, PRIME)
        invariant Val(r, 0, 4) < WIDE && carry >= 0
        invariant c == if PRIME < Val(r, 0, 4) then -1 else if PRIME > Val(r, 0, 4) then 1 else 0
        decreases Val(r, 0, 4) + WIDE * carry
      {
        ghost var t := Val(r, 0, 4) + WIDE * carry;
        carry := SubOnce(r, curveP, carry);
        Small(r[0..4]);
        ShiftCong(x, t, -1);
        c := Cmp(curveP, 0, r, 0, 4);
      }
    }
    Finish(x, Val(r, 0, 4));
  }

  lemma ReducedIs(w: seq<Word>)
    requires |w| == 8
    ensures Reduced(w) == T0(w) + 2 * S1(w) + 2 * S2(w) + S3(w) + S4(w) - D1(w) - D2(w) - D3(w) - D4(w)
  {}

  lemma Small(s: seq<Word>)
    requires |s| == 4
    ensures 0 <= Value(s) < WIDE
  {
    ValueBound(s);
    Value4(s);
  }

  lemma ShiftCong(x: int, t: int, k: int)
    requires Cong(x, t, PRIME)
    ensures Cong(x, t + k * PRIME, PRIME)
  {
    CongFrom(t + k * PRIME, t, k, PRIME);
  }

  lemma Finish(x: int, r: int)
    requires Cong(x, r, PRIME) && 0 <= r < PRIME
    ensures r == x % PRIME
  {
    CongReduced(r, x, PRIME);
  }

  /** `vli_modMult_fast`. */
  method ModMultFast(r: array<Word>, left: array<Word>, right: array<Word>, curveP: array<Word>)
    requires r.Length == left.Length == right.Length == curveP.Length == 4 && r != curveP && curveP[..] == CURVE_P
    modifies r
    ensures Val(r, 0, 4) == (old(Val(left, 0, 4)) * old(Val(right, 0, 4))) % PRIME
  {
    var product := new Word[8];
    Mult(product, left, right, 4);
    MmodFast(r, product, curveP);
  }

  /** `vli_modSquare_fast`. */
  method ModSquareFast(r: array<Word>, left: array<Word>, curveP: array<Word>)
    requires r.Length == left.Length == curveP.Length == 4 && r != curveP && curveP[..] == CURVE_P
    modifies r
    ensures Val(r, 0, 4) == (old(Val(left, 0, 4)) * old(Val(left, 0, 4))) % PRIME
  {
    var product := new Word[8];
    Square(product, left, 4);
    MmodFast(r, product, curveP);
  }
}
