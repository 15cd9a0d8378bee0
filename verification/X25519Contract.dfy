/** `fcontract`: the unique representative of a field element, as 32 bytes. */
module X25519Contract {
  import opened Arith
  import opened TwosComplement
  import opened Rfc7748
  import opened X25519Field
  import opened X25519Reduce
  import opened X25519Bytes

  // ---------------------------------------------------------------- borrowing

  /** The number of units borrowed from the limb above, by sign masks. */
  function Borrowed(x: S32, i: nat): (carry: S32)
    ensures if x >= 0 then carry == 0 else 0 <= x + Radix(i) * carry < Radix(i) && carry > 0
  {
    hide And32;
    var mask := x / 0x8000_0000;
    -(And32(x, mask) / Radix(i))
  }

  /** Every limb in the range that the passes start from. */
  ghost predicate Loose(s: seq<int>) {
    |s| == 10 && forall i :: 0 <= i < 10 ==> -TWO26 < s[i] < TWO26
  }

  /** All limbs but the first are nonnegative, and the first is nearly so. */
  ghost predicate AlmostPositive(s: seq<int>) {
    Loose(s) && s[0] >= -57 && forall i :: 1 <= i < 10 ==> s[i] >= 0
  }

  ghost predicate Positive(s: seq<int>) {
    Loose(s) && forall i :: 0 <= i < 10 ==> s[i] >= 0
  }

  /** In the middle of a borrowing pass over `s`: c units were borrowed from limb i. */
  ghost predicate Borrowing(s: seq<int>, t: seq<int>, i: nat, c: int) {
    && Loose(s) && |t| == 10 && i < 10 && 0 <= c <= 3
    && (forall j :: 0 <= j < i ==> 0 <= t[j] < TWO26)
    && t[i] == s[i] - c
    && (forall j :: i < j < 10 ==> t[j] == s[j])
    && (i == 0 ==> c == 0)
    && (AlmostPositive(s) ==> c <= 1 && (c == 1 ==> t[0] >= TWO26 - 57))
    && Sum(t, 10) == Sum(s, 10)
  }

  lemma BorrowStep(s: seq<int>, t: seq<int>, i: nat, c: int, carry: int)
    requires Borrowing(s, t, i, c) && i < 9
    requires if t[i] >= 0 then carry == 0 else 0 <= t[i] + Radix(i) * carry < Radix(i) && carry > 0
    ensures Borrowing(s, t[i := t[i] + Radix(i) * carry][i + 1 := t[i + 1] - carry], i + 1, carry)
    ensures -0x1000_0000 < t[i] + Radix(i) * carry < 0x1000_0000
  {
    hide Sum;
    SumMove(t, 10, i, carry);
  }

  lemma BorrowLast(s: seq<int>, t: seq<int>, c: int, carry: int)
    requires Borrowing(s, t, 9, c)
    requires if t[9] >= 0 then carry == 0 else 0 <= t[9] + TWO25 * carry < TWO25 && carry > 0
    ensures 0 <= carry <= 3
    ensures var r := t[9 := t[9] + TWO25 * carry][0 := t[0] - 19 * carry];
            Loose(r) && AlmostPositive(r) && (AlmostPositive(s) ==> Positive(r)) && Cong(Sum(r, 10), Sum(s, 10), P)
  {
    hide Sum, Cong, Weight;
    var u := t[9 := t[9] + TWO25 * carry];
    SumUpdate(t, 10, 9, TWO25 * carry);
    SumUpdate(u, 10, 0, -19 * carry);
    LastWeights();
    var w := Weight(9);
    assert w * (TWO25 * carry) == TWO255 * carry by { MulAssoc(w, TWO25, carry); }
    CongFrom(Sum(u[0 := u[0] + -19 * carry], 10), Sum(s, 10), carry, P);
    assert u[0 := u[0] + -19 * carry] == u[0 := t[0] - 19 * carry];
  }

  lemma LastWeights()
    ensures Weight(0) == 1 && Weight(9) * TWO25 == TWO255
  {
    Weights();
    assert Weight(10) == Radix(9) * Weight(9);
  }

  method BorrowPass(input: array<S32>)
    requires Loose(input[..])
    modifies input
    ensures AlmostPositive(input[..]) && (AlmostPositive(old(input[..])) ==> Positive(input[..]))
    ensures Cong(Sum(input[..], 10), Sum(old(input[..]), 10), P)
  {
    hide Sum, Cong, Borrowed, And32;
    ghost var s, c: int := input[..], 0;
    var i := 0;
    while i < 9
      invariant 0 <= i <= 9 && Borrowing(s, input[..], i, c)
    {
      ghost var t := input[..];
      var carry := Borrowed(input[i], i);
      BorrowStep(s, t, i, c, carry);
      var shifted: S32 := carry * Radix(i);
      input[i] := input[i] + shifted;
      input[i + 1] := input[i + 1] - carry;
      assert input[..] == t[i := t[i] + Radix(i) * carry][i + 1 := t[i + 1] - carry];
      c := carry;
      i := i + 1;
    }
    ghost var t := input[..];
    var carry := Borrowed(input[9], 9);
    BorrowLast(s, t, c, carry);
    var shifted: S32 := carry * TWO25;
    input[9] := input[9] + shifted;
    shifted := carry * 19;
    input[0] := input[0] - shifted;
    assert input[..] == t[9 := t[9] + TWO25 * carry][0 := t[0] - 19 * carry];
  }

  // ---------------------------------------------------------------- carrying

  /** Every limb fits its width. */
  ghost predicate Reduced(s: seq<int>) {
    |s| == 10 && forall i :: 0 <= i < 10 ==> 0 <= s[i] < Radix(i)
  }

  /** All limbs but the first fit their width, and the first nearly does. */
  ghost predicate AlmostReduced(s: seq<int>) {
    |s| == 10 && 0 <= s[0] < TWO26 + 38 && forall i :: 1 <= i < 10 ==> 0 <= s[i] < Radix(i)
  }

  ghost predicate Small(s: seq<int>) {
    |s| == 10 && 0 <= s[0] < TWO26 + 38 && forall i :: 1 <= i < 10 ==> 0 <= s[i] < TWO26
  }

  /** In the middle of a carrying pass over `s`: c units were carried into limb i. */
  ghost predicate CarryingInto(s: seq<int>, t: seq<int>, i: nat, c: int) {
    && Small(s) && |t| == 10 && i < 10 && 0 <= c <= 2
    && (forall j :: 0 <= j < i ==> 0 <= t[j] < Radix(j))
    && t[i] == s[i] + c
    && (forall j :: i < j < 10 ==> t[j] == s[j])
    && (i == 0 ==> c == 0)
    && (AlmostReduced(s) ==> c <= 1 && (c == 1 ==> t[0] < 38))
    && Sum(t, 10) == Sum(s, 10)
  }

  lemma CarryStepUp(s: seq<int>, t: seq<int>, i: nat, c: int, carry: int)
    requires CarryingInto(s, t, i, c) && i < 9 && carry == t[i] / Radix(i)
    ensures t[i] % Radix(i) == t[i] - Radix(i) * carry && 0 <= carry <= 2
    ensures CarryingInto(s, t[i := t[i] % Radix(i)][i + 1 := t[i + 1] + carry], i + 1, carry)
  {
    hide Sum;
    SumMove(t, 10, i, -carry);
  }

  lemma CarryLast(s: seq<int>, t: seq<int>, c: int, carry: int)
    requires CarryingInto(s, t, 9, c) && carry == t[9] / TWO25
    ensures 0 <= carry <= 2 && t[9] % TWO25 == t[9] - TWO25 * carry
    ensures var r := t[9 := t[9] % TWO25][0 := t[0] + 19 * carry];
            AlmostReduced(r) && (AlmostReduced(s) ==> Reduced(r)) && Cong(Sum(r, 10), Sum(s, 10), P)
  {
    hide Sum, Cong, Weight;
    var u := t[9 := t[9] + -TWO25 * carry];
    SumUpdate(t, 10, 9, -TWO25 * carry);
    SumUpdate(u, 10, 0, 19 * carry);
    LastWeights();
    var w := Weight(9);
    assert w * (-TWO25 * carry) == -(TWO255 * carry) by { MulAssoc(w, TWO25, carry); MulAssoc(w, -TWO25, carry); }
    CongFrom(Sum(u[0 := u[0] + 19 * carry], 10), Sum(s, 10), -carry, P);
    assert u[0 := u[0] + 19 * carry] == t[9 := t[9] % TWO25][0 := t[0] + 19 * carry];
  }

  function RadixMask(i: nat): S32 {
    if i % 2 == 1 then 0x1ff_ffff else 0x3ff_ffff
  }

  method CarryPass(input: array<S32>)
    requires Small(input[..])
    modifies input
    ensures AlmostReduced(input[..]) && (AlmostReduced(old(input[..])) ==> Reduced(input[..]))
    ensures Cong(Sum(input[..], 10), Sum(old(input[..]), 10), P)
  {
    hide Sum, Cong, And32;
    ghost var s, c: int := input[..], 0;
    var i := 0;
    while i < 9
      invariant 0 <= i <= 9 && CarryingInto(s, input[..], i, c)
    {
      ghost var t := input[..];
      var carry: S32 := input[i] / Radix(i);
      CarryStepUp(s, t, i, c, carry);
      AndRadix(input[i]);
      input[i] := And32(input[i], RadixMask(i));
      input[i + 1] := input[i + 1] + carry;
      assert input[..] == t[i := t[i] % Radix(i)][i + 1 := t[i + 1] + carry];
      c := carry;
      i := i + 1;
    }
    ghost var t := input[..];
    var carry: S32 := input[9] / TWO25;
    CarryLast(s, t, c, carry);
    AndRadix(input[9]);
    input[9] := And32(input[9], 0x1ff_ffff);
    input[0] := input[0] + 19 * carry;
    assert input[..] == t[9 := t[9] % TWO25][0 := t[0] + 19 * carry];
  }

  // ---------------------------------------------------------------- one conditional subtraction

  /** What a number of n digits lacks to the greatest one. */
  lemma {:induction false} SumComplement(s: seq<int>, e: seq<int>, n: nat)
    requires n <= |s| && n <= |e| && forall i :: 0 <= i < n ==> e[i] == Radix(i) - 1 - s[i]
    ensures Sum(s, n) + Sum(e, n) == Weight(n) - 1
  {
    if n > 0 {
      SumComplement(s, e, n - 1);
      var w, r := Weight(n - 1), Radix(n - 1);
      assert w * s[n - 1] + w * e[n - 1] == w * (r - 1) by { MulDistrib(w, s[n - 1], e[n - 1]); }
    }
  }

  lemma {:induction false} SumAbove(e: seq<int>, n: nat, i: nat)
    requires i < n <= |e| && forall k :: 0 <= k < n ==> e[k] >= 0
    ensures Sum(e, n) >= Weight(i) * e[i] && Sum(e, n) >= 0
  {
    if n == i + 1 {
      if n > 1 { SumAbove(e, n - 1, 0); }
      WeightPositive(i);
      MulLe(Weight(i), 0, e[i]);
    } else {
      SumAbove(e, n - 1, i);
      WeightPositive(n - 1);
      MulLe(Weight(n - 1), 0, e[n - 1]);
    }
  }

  lemma {:induction false} WeightPositive(i: nat)
    ensures Weight(i) >= 1 && (i > 0 ==> Weight(i) >= TWO26)
  {
    if i > 0 { WeightPositive(i - 1); }
  }

  /** A reduced number reaches P only when all limbs but the first are at their maximum. */
  ghost predicate AtLeastP(s: seq<int>) {
    |s| == 10 && s[0] >= 0x3ff_ffed && forall i :: 1 <= i < 10 ==> s[i] == RadixMask(i)
  }

  lemma ReachesP(s: seq<int>)
    requires Reduced(s)
    ensures 0 <= Sum(s, 10) < TWO255 && (Sum(s, 10) >= P <==> AtLeastP(s))
  {
    hide Sum, Weight;
    var e := seq(10, i requires 0 <= i < 10 => Radix(i) - 1 - s[i]);
    SumComplement(s, e, 10);
    TopWeight();
    SumAbove(e, 10, 0);
    SumAbove(s, 10, 0);
    if AtLeastP(s) {
      LowSum(e);
    } else if s[0] < 0x3ff_ffed {
      assert e[0] > 18;
    } else {
      var i :| 1 <= i < 10 && s[i] != RadixMask(i);
      SumAbove(e, 10, i);
      WeightPositive(i);
      MulLe(Weight(i), 1, e[i]);
    }
  }

  /** Only the first limb is not zero. */
  lemma LowSum(s: seq<int>)
    requires |s| == 10 && forall i :: 1 <= i < 10 ==> s[i] == 0
    ensures Sum(s, 10) == s[0]
  {
    hide Sum;
    var t := s[0 := 0];
    SumNothing(t, 10);
    SumUpdate(t, 10, 0, s[0]);
    assert t[0 := t[0] + s[0]] == s;
  }

  lemma {:induction false} SumNothing(s: seq<int>, n: nat)
    requires n <= |s| && forall i :: 0 <= i < n ==> s[i] == 0
    ensures Sum(s, n) == 0
  {
    if n > 0 { SumNothing(s, n - 1); }
  }

  /** s32_gte */
  function S32Gte(a: S32, b: S32): (r: S32)
    requires a >= 0 && b >= 0
    ensures r == if a >= b then -1 else 0
  {
    -1 - (a - b) / 0x8000_0000
  }

  /** All ones if the limbs are at least P, else zero. */
  method PrimeMask(input: array<S32>) returns (mask: S32)
    requires Reduced(input[..])
    ensures mask == if AtLeastP(input[..]) then -1 else 0
  {
    hide And32, S32Eq;
    ghost var s := input[..];
    mask := S32Gte(input[0], 0x3ff_ffed);
    var i := 1;
    while i < 10
      invariant 1 <= i <= 10
      invariant mask == if s[0] >= 0x3ff_ffed && (forall j :: 1 <= j < i ==> s[j] == RadixMask(j)) then -1 else 0
    {
      mask := And32(mask, S32Eq(input[i], RadixMask(i)));
      i := i + 1;
    }
  }

  method SubtractPrime(input: array<S32>)
    requires Reduced(input[..])
    modifies input
    ensures Reduced(input[..]) && Sum(input[..], 10) == Mod(Sum(old(input[..]), 10))
  {
    hide Sum, And32, Mod;
    ghost var s := input[..];
    ReachesP(s);
    var mask := PrimeMask(input);
    input[0] := input[0] - And32(mask, 0x3ff_ffed);
    var i := 1;
    while i < 10
      invariant 1 <= i <= 10
      invariant input[0] == s[0] - if mask == -1 then 0x3ff_ffed else 0
      invariant forall j :: 1 <= j < i ==> input[j] == s[j] - if mask == -1 then RadixMask(j) else 0
      invariant forall j :: i <= j < 10 ==> input[j] == s[j]
    {
      input[i] := input[i] - And32(mask, RadixMask(i));
      i := i + 1;
    }
    Subtracted(s, input[..], mask);
  }

  lemma Subtracted(s: seq<int>, t: seq<int>, mask: int)
    requires Reduced(s) && |t| == 10 && mask == if AtLeastP(s) then -1 else 0
    requires t[0] == s[0] - if mask == -1 then 0x3ff_ffed else 0
    requires forall j :: 1 <= j < 10 ==> t[j] == s[j] - if mask == -1 then RadixMask(j) else 0
    ensures Reduced(t) && Sum(t, 10) == Mod(Sum(s, 10))
  {
    hide Sum, Weight;
    ReachesP(s);
    if mask == -1 {
      LowSum(t);
      var e := seq(10, i requires 0 <= i < 10 => Radix(i) - 1 - s[i]);
      SumComplement(s, e, 10);
      TopWeight();
      LowSum(e);
      DivModUnique(Sum(s, 10), P, 1, Sum(t, 10));
    } else {
      assert t == s;
      DivModUnique(Sum(s, 10), P, 0, Sum(s, 10));
    }
  }

  // ---------------------------------------------------------------- packing

  /** A limb shifted left in 32 bits: limb 4 runs over into the sign. */
  function Shl32(x: S32, k: nat): (r: S32) {
    Narrow(x * Two(k))
  }

  /** The bytes of a word are those of the number it was cut from. */
  lemma ShiftedLimb(x: int, i: nat)
    requires i < 10 && 0 <= x < Radix(i)
    ensures Shl32(x, Shift(i)) % 0x1_0000_0000 == x * Two(Shift(i)) && 0 <= x * Two(Shift(i)) < 0x1_0000_0000
    ensures (x * Two(Shift(i))) % Two(Shift(i)) == 0
    ensures x * Two(Shift(i)) < Two(Shift(i) + Width(i))
  {
    hide Two, Radix;
    var d, w := Shift(i), Width(i);
    Positions(i);
    RadixTwo(i);
    TwoAdd(d, w);
    Two32();
    TwoMono(d + w, 32);
    var m := Two(d) as int;
    MulLt(m, x, Radix(i)); MulLe(m, 0, x);
    assert x * m == m * x;
    DivModUnique(x * m, m, x, 0);
    NarrowMod(x * m);
  }

  lemma NarrowMod(y: int)
    requires 0 <= y < 0x1_0000_0000
    ensures Narrow(y) % 0x1_0000_0000 == y
  {}

  /** The four bytes of a word, arithmetic shifts and masks of its signed form. */
  lemma WordBytes(x: S32, y: int)
    requires x % 0x1_0000_0000 == y
    ensures x % 256 == y % 256 && (x / 0x100) % 256 == (y / 0x100) % 256
    ensures (x / 0x1_0000) % 256 == (y / 0x1_0000) % 256 && (x / 0x100_0000) % 256 == y / 0x100_0000
    ensures y == y % 256 + 0x100 * ((y / 0x100) % 256) + 0x1_0000 * ((y / 0x1_0000) % 256) + 0x100_0000 * (y / 0x100_0000)
  {
    var k := x / 0x1_0000_0000;
    assert x == y + 0x1_0000_0000 * k;
    SameByte(x, y, k, 1, 0x100_0000);
    SameByte(x, y, k, 0x100, 0x1_0000);
    SameByte(x, y, k, 0x1_0000, 0x100);
    SameByte(x, y, k, 0x100_0000, 1);
    FourDigits(y);
  }

  /** Numbers that differ by a multiple of 256 d have the same byte at d. */
  lemma SameByte(x: int, y: int, k: int, d: int, m: int)
    requires d > 0 && x == y + (d * (256 * m)) * k
    ensures (x / d) % 256 == (y / d) % 256
  {
    var q, r := y / d, y % d;
    assert y == d * q + r;
    var mk := m * k;
    assert (d * (256 * m)) * k == d * (256 * mk) by {
      MulAssoc(d, 256 * m, k);
      MulAssoc(256, m, k);
    }
    MulDistrib(d, q, 256 * mk);
    DivModUnique(x, d, q + 256 * mk, r);
    DivModUnique(q + 256 * mk, 256, q / 256 + mk, q % 256);
  }

  lemma FourDigits(y: int)
    requires 0 <= y < 0x1_0000_0000
    ensures y == y % 256 + 0x100 * ((y / 0x100) % 256) + 0x1_0000 * ((y / 0x1_0000) % 256) + 0x100_0000 * (y / 0x100_0000)
  {
    assert (y / 0x100) / 0x100 == y / 0x1_0000 && (y / 0x1_0000) / 0x100 == y / 0x100_0000;
  }

  /** The four bytes of one limb. */
  method Place(output: array<Byte>, x: S32, i: nat, ghost limb: int)
    requires output.Length == 32 && i < 10 && 0 <= limb < Radix(i) && x == Shl32(limb, Shift(i))
    requires output[Start(i)] < Two(Shift(i))
    modifies output
    ensures forall k :: 0 <= k < 32 && !(Start(i) <= k < Start(i) + 4) ==> output[k] == old(output[k])
    ensures LittleEndian(output[..Start(i) + 4]) == old(LittleEndian(output[..Start(i) + 1])) + Weight(i) * limb
    ensures i < 9 && Start(i + 1) == Start(i) + 3 ==> output[Start(i + 1)] < Two(Shift(i + 1))
  {
    hide Two, LittleEndian, Weight, Narrow, Shl32, Or8;
    var s := Start(i);
    Positions(i);
    ShiftedLimb(limb, i);
    ghost var y, was, b0 := limb * Two(Shift(i)), output[..], output[s];
    WordBytes(x, y);
    LowBits(y, Shift(i));
    Or8Disjoint(b0, y % 256, Shift(i));
    output[s] := Or8(output[s], x % 256);
    output[s + 1] := (x / 0x100) % 256;
    output[s + 2] := (x / 0x1_0000) % 256;
    output[s + 3] := (x / 0x100_0000) % 256;
    PlacedValue(was, output[..], s, b0, y);
    ghost var m := Two(8 * s) as int;
    assert m * y == Weight(i) * limb by {
      WeightTwo(i);
      TwoAdd(8 * s, Shift(i));
      MulAssoc(m, Two(Shift(i)), limb);
    }
    if i < 9 && Start(i + 1) == s + 3 {
      TopByte(y, Shift(i + 1));
    }
  }

  lemma TopByte(y: int, k: nat)
    requires y < Two(24 + k)
    ensures y / 0x100_0000 < Two(k)
  {
    hide Two;
    TwoAdd(24, k);
    TwoTwentyFour();
    var q := y / 0x100_0000;
    if q >= Two(k) { MulLe(0x100_0000, Two(k), q); }
  }

  lemma TwoTwentyFour()
    ensures Two(24) == 0x100_0000 && Two(8) == 0x100
  {
    assert Two(8) == 0x100;
    hide Two;
    TwoAdd(8, 8);
    assert Two(16) == 0x1_0000;
    TwoAdd(16, 8);
  }

  lemma LowBits(y: int, k: nat)
    requires k <= 8 && y % Two(k) == 0
    ensures (y % 256) % Two(k) == 0
  {
    hide Two;
    TwoTwentyFour();
    TwoAdd(k, 8 - k);
    var m, h := Two(k) as int, Two(8 - k) as int;
    var a, q := y / m, y / 256;
    assert y == m * a && y == 256 * q + y % 256;
    assert y % 256 == m * (a - h * q) by { MulDistrib(m, a, h * q); MulAssoc(m, h, q); }
    DivModUnique(y % 256, m, a - h * q, 0);
  }

  lemma PlacedValue(was: seq<Byte>, now: seq<Byte>, s: nat, b0: int, y: int)
    requires |was| == |now| == 32 && s + 4 <= 32 && was[..s] == now[..s] && was[s] == b0 && now[s] == b0 + y % 256
    requires now[s + 1] == (y / 0x100) % 256 && now[s + 2] == (y / 0x1_0000) % 256 && now[s + 3] == y / 0x100_0000
    requires y == y % 256 + 0x100 * ((y / 0x100) % 256) + 0x1_0000 * ((y / 0x1_0000) % 256) + 0x100_0000 * (y / 0x100_0000)
    ensures LittleEndian(now[..s + 4]) == LittleEndian(was[..s + 1]) + Two(8 * s) * y
  {
    hide LittleEndian, Two;
    var lo, mid := now[..s], now[s..s + 4];
    assert now[..s + 4] == lo + mid && was[..s + 1] == lo + [was[s]];
    BytesConcat(lo, mid);
    BytesConcat(lo, [was[s]]);
    OneByte(was[s]);
    Four(mid);
    assert Word4(mid, 0) == b0 + y;
    MulDistrib(Two(8 * s), b0, y);
  }

  lemma OneByte(b: int)
    ensures LittleEndian([b]) == b && LittleEndian([]) == 0
  {}

  /** The limbs below i are in place, and the byte in which limb i starts holds nothing else. */
  ghost predicate Packed(output: seq<Byte>, s: seq<int>, i: nat) {
    && |output| == 32 && Reduced(s) && i < 10
    && LittleEndian(output[..Start(i) + 1]) == Sum(s, i)
    && output[Start(i)] < Two(Shift(i))
    && (i <= 4 ==> output[16] == 0)
  }

  method PlaceNext(output: array<Byte>, x: S32, i: nat, ghost s: seq<int>)
    requires output.Length == 32 && Packed(output[..], s, i) && x == Shl32(s[i], Shift(i))
    modifies output
    ensures i < 9 ==> Packed(output[..], s, i + 1)
    ensures i == 9 ==> LittleEndian(output[..]) == Sum(s, 10)
  {
    hide Two, LittleEndian, Weight, Sum, Shl32;
    ghost var n := Start(i) + 1;
    assert output[..][..n] == output[..n];
    Place(output, x, i, s[i]);
    SumNext(s, i);
    Positions(i);
    assert output[..][..Start(i) + 4] == output[..Start(i) + 4];
    if i == 4 {
      assert output[..][..17] == output[..16] + [0];
      BytesConcat(output[..16], [0]);
      OneByte(0);
      TwoSmall();
    } else if i < 9 {
      assert output[..][..Start(i + 1) + 1] == output[..Start(i) + 4];
    } else {
      assert output[..] == output[..32];
    }
  }

  lemma PackStart(output: seq<Byte>, s: seq<int>)
    requires |output| == 32 && output[0] == 0 && output[16] == 0 && Reduced(s)
    ensures Packed(output, s, 0)
  {
    assert output[..1] == [0];
    OneByte(0);
  }

  method PackBytes(output: array<Byte>, input: array<S32>)
    requires output.Length == 32 && Reduced(input[..])
    modifies output, input
    ensures LittleEndian(output[..]) == Sum(old(input[..]), 10)
  {
    hide Packed, Two, LittleEndian, Weight, Sum, Shl32;
    ghost var s := input[..];
    input[1] := Shl32(input[1], 2);
    input[2] := Shl32(input[2], 3);
    input[3] := Shl32(input[3], 5);
    input[4] := Shl32(input[4], 6);
    input[6] := Shl32(input[6], 1);
    input[7] := Shl32(input[7], 3);
    input[8] := Shl32(input[8], 4);
    input[9] := Shl32(input[9], 6);
    output[0] := 0;
    output[16] := 0;
    PackStart(output[..], s);
    NoShift(input[0]); NoShift(input[5]);
    PlaceNext(output, input[0], 0, s);
    PlaceNext(output, input[1], 1, s);
    PlaceNext(output, input[2], 2, s);
    PlaceNext(output, input[3], 3, s);
    PlaceNext(output, input[4], 4, s);
    PlaceNext(output, input[5], 5, s);
    PlaceNext(output, input[6], 6, s);
    PlaceNext(output, input[7], 7, s);
    PlaceNext(output, input[8], 8, s);
    PlaceNext(output, input[9], 9, s);
  }

  lemma NoShift(x: S32)
    ensures Shl32(x, 0) == x
  {}

  // ---------------------------------------------------------------- the whole contraction

  /** The 32 bytes of the representative in [0, P). */
  method Fcontract(output: array<Byte>, limbs: array<Limb>)
    requires output.Length == 32 && Bounded(limbs[..], 10, TWO26)
    modifies output
    ensures LittleEndian(output[..]) == Mod(Sum(limbs[..], 10))
  {
    hide Sum, Cong, Bounded, Mod;
    Enough(limbs[..]);
    var input := Copy32(limbs);
    ghost var v := Sum(limbs[..], 10);
    var j := 0;
    while j < 2
      invariant 0 <= j <= 2 && Loose(input[..]) && Cong(Sum(input[..], 10), v, P)
      invariant (j >= 1 ==> AlmostPositive(input[..])) && (j == 2 ==> Positive(input[..]))
    {
      ghost var w := Sum(input[..], 10);
      BorrowPass(input);
      CongTrans(Sum(input[..], 10), w, v, P);
      j := j + 1;
    }
    LastBorrow(input);
    j := 0;
    while j < 2
      invariant 0 <= j <= 2 && Small(input[..]) && Cong(Sum(input[..], 10), v, P)
      invariant (j >= 1 ==> AlmostReduced(input[..])) && (j == 2 ==> Reduced(input[..]))
    {
      ghost var w := Sum(input[..], 10);
      CarryPass(input);
      CongTrans(Sum(input[..], 10), w, v, P);
      j := j + 1;
    }
    ghost var w := Sum(input[..], 10);
    SubtractPrime(input);
    SameRemainder(w, v);
    PackBytes(output, input);
  }

  lemma SameRemainder(w: int, v: int)
    requires Cong(w, v, P)
    ensures Mod(w) == Mod(v)
  {}

  lemma Enough(s: seq<int>)
    requires Bounded(s, 10, TWO26)
    ensures |s| >= 10 && Cong(Sum(s, 10), Sum(s, 10), P)
  {}

  method Copy32(limbs: array<Limb>) returns (input: array<S32>)
    requires Bounded(limbs[..], 10, TWO26)
    ensures fresh(input) && Loose(input[..]) && limbs.Length >= 10 && Sum(input[..], 10) == Sum(limbs[..], 10)
  {
    hide Sum;
    input := new S32[10];
    for i := 0 to 10
      invariant forall k :: 0 <= k < i ==> input[k] == limbs[k]
    {
      assert limbs[..][i] == limbs[i];
      input[i] := limbs[i];
    }
    assert input[..][..10] == limbs[..][..10];
    SumSame(input[..], limbs[..], 10);
  }

  /** The borrow from limb 1 that follows the two passes; nothing is left to borrow. */
  method LastBorrow(input: array<S32>)
    requires Positive(input[..])
    modifies input
    ensures input[..] == old(input[..])
  {
    hide Borrowed, And32;
    var carry := Borrowed(input[0], 0);
    var shifted: S32 := carry * TWO26;
    input[0] := input[0] + shifted;
    input[1] := input[1] - carry;
  }

  /** Expanding what was written gives back the same field element. */
  lemma ExpandContracted(bytes: seq<Byte>, v: int)
    requires |bytes| == 32 && LittleEndian(bytes) == Mod(v)
    ensures Cong(LittleEndian(bytes) % TWO255, v, P)
  {
    hide LittleEndian;
    CongMod(v, P);
    DivModUnique(Mod(v), TWO255, 0, Mod(v));
  }
}
