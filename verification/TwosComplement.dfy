/** Machine words as bit sequences, least significant bit first, and the bitwise operators. */
module TwosComplement {
  import opened Arith

  /** The low n bits of the two's complement form of x. */
  function Bits(x: int, n: nat): (s: seq<bool>)
    ensures |s| == n
    decreases n
  {
    if n == 0 then [] else [x % 2 == 1] + Bits(x / 2, n - 1)
  }

  /** The signed number that a word stands for: its last bit counts negatively. */
  function Signed(s: seq<bool>): int
    requires |s| > 0
    decreases |s|
  {
    var b := if s[0] then 1 else 0;
    if |s| == 1 then -b else b + 2 * Signed(s[1..])
  }

  lemma {:induction false} SignedBits(x: int, n: nat)
    requires n > 0 && -(Two(n - 1) as int) <= x < Two(n - 1)
    ensures Signed(Bits(x, n)) == x
    decreases n
  {
    if n > 1 {
      assert Bits(x, n)[1..] == Bits(x / 2, n - 1);
      SignedBits(x / 2, n - 1);
    }
  }

  function And(a: seq<bool>, b: seq<bool>): (s: seq<bool>)
    requires |a| == |b|
    ensures |s| == |a|
  {
    seq(|a|, i requires 0 <= i < |a| => a[i] && b[i])
  }

  function Xor(a: seq<bool>, b: seq<bool>): (s: seq<bool>)
    requires |a| == |b|
    ensures |s| == |a|
  {
    seq(|a|, i requires 0 <= i < |a| => a[i] != b[i])
  }

  function Not(a: seq<bool>): (s: seq<bool>) {
    seq(|a|, i requires 0 <= i < |a| => !a[i])
  }

  function ShiftLeft(a: seq<bool>, k: nat): (s: seq<bool>) {
    seq(|a|, i requires 0 <= i < |a| => i >= k && a[i - k])
  }

  // ---------------------------------------------------------------- 32-bit words

  type S32 = x: int | -0x8000_0000 <= x < 0x8000_0000

  lemma Two32()
    ensures Two(31) == 0x8000_0000 && Two(32) == 0x1_0000_0000
  {
    assert Two(8) == 256 && Two(16) == 0x1_0000;
    TwoAdd(16, 16);
  }

  lemma Word32(x: S32)
    ensures Signed(Bits(x, 32)) == x
  {
    hide Two, Bits, Signed;
    Two32();
    SignedBits(x, 32);
  }

  lemma {:induction false} SignedBound(s: seq<bool>)
    requires |s| > 0
    ensures -(Two(|s| - 1) as int) <= Signed(s) < Two(|s| - 1)
    decreases |s|
  {
    if |s| > 1 { SignedBound(s[1..]); }
  }

  /** The signed value of a 32-bit word. */
  function Value32(s: seq<bool>): (r: S32)
    requires |s| == 32
  {
    SignedBound(s); Two32();
    Signed(s)
  }

  function And32(a: S32, b: S32): (r: S32)
    ensures b == -1 ==> r == a
    ensures b == 0 ==> r == 0
    ensures a == -1 ==> r == b
    ensures a == 0 ==> r == 0
  {
    Word32(a); Word32(b);
    AndMask(Bits(a, 32), b, 32); AndMask(Bits(b, 32), a, 32);
    AndCommutes(Bits(a, 32), Bits(b, 32));
    Value32(And(Bits(a, 32), Bits(b, 32)))
  }

  lemma {:induction false} MaskBits(m: int, n: nat)
    requires m == 0 || m == -1
    ensures forall i :: 0 <= i < n ==> Bits(m, n)[i] == (m == -1)
    decreases n
  {
    if n > 0 { MaskBits(m, n - 1); }
  }

  /** A mask of ones keeps a word, one of zeros clears it. */
  lemma AndMask(s: seq<bool>, m: int, n: nat)
    requires |s| == n && n > 0
    ensures m == -1 ==> And(s, Bits(m, n)) == s
    ensures m == 0 ==> Signed(And(s, Bits(m, n))) == 0
  {
    hide Bits, Signed;
    if m == -1 || m == 0 { MaskBits(m, n); }
    if m == 0 {
      assert forall i :: 0 <= i < n ==> !And(s, Bits(m, n))[i];
      NoBits(And(s, Bits(m, n)));
    }
    if m == -1 { assert And(s, Bits(m, n)) == s; }
  }

  lemma {:induction false} NoBits(s: seq<bool>)
    requires |s| > 0 && forall i :: 0 <= i < |s| ==> !s[i]
    ensures Signed(s) == 0
    decreases |s|
  {
    if |s| > 1 { NoBits(s[1..]); }
  }

  lemma AndCommutes(a: seq<bool>, b: seq<bool>)
    requires |a| == |b|
    ensures And(a, b) == And(b, a)
  {}

  lemma AndNext(x: int, m: int, n: nat)
    requires n > 1 && m % 2 == 1
    ensures Signed(And(Bits(x, n), Bits(m, n))) == x % 2 + 2 * Signed(And(Bits(x / 2, n - 1), Bits(m / 2, n - 1)))
  {
    var s := And(Bits(x, n), Bits(m, n));
    assert Bits(x, n)[1..] == Bits(x / 2, n - 1) && Bits(m, n)[1..] == Bits(m / 2, n - 1);
    assert s[1..] == And(Bits(x / 2, n - 1), Bits(m / 2, n - 1));
  }

  /** A mask of k ones keeps the remainder modulo 2 to the k. */
  lemma {:induction false} AndLow(x: int, k: nat, n: nat)
    requires k < n
    ensures Signed(And(Bits(x, n), Bits(Two(k) - 1, n))) == x % Two(k)
    decreases n
  {
    if k == 0 {
      AndMask(Bits(x, n), 0, n);
    } else {
      hide Bits, And, Signed, Two;
      TwoNext(k - 1);
      AndLow(x / 2, k - 1, n - 1);
      AndStep(x, Two(k - 1), n);
    }
  }

  lemma AndStep(x: int, m: int, n: nat)
    requires n > 1 && m > 0 && Signed(And(Bits(x / 2, n - 1), Bits(m - 1, n - 1))) == (x / 2) % m
    ensures Signed(And(Bits(x, n), Bits(2 * m - 1, n))) == x % (2 * m)
  {
    hide Bits, And, Signed;
    assert (2 * m - 1) / 2 == m - 1 && (2 * m - 1) % 2 == 1;
    AndNext(x, 2 * m - 1, n);
    LowDigit(x, m);
  }

  lemma LowDigit(x: int, m: int)
    requires m > 0
    ensures x % (2 * m) == x % 2 + 2 * ((x / 2) % m)
  {
    var h := x / 2;
    var q, r := h / m, h % m;
    assert h == m * q + r;
    assert 2 * (m * q) == (2 * m) * q;
    DivModUnique(x, 2 * m, q, x % 2 + 2 * r);
  }

  /** The masks of 25 and of 26 ones. */
  lemma AndRadix(x: S32)
    ensures And32(x, 0x1ff_ffff) == x % 0x200_0000 && And32(x, 0x3ff_ffff) == x % 0x400_0000
  {
    Two26();
    AndLow(x, 25, 32); AndLow(x, 26, 32);
  }

  lemma Two26()
    ensures Two(25) == 0x200_0000 && Two(26) == 0x400_0000
  {
    assert Two(10) == 1024;
    hide Two;
    TwoAdd(10, 10); TwoAdd(20, 5); TwoAdd(25, 1);
    TwoSmall();
  }

  lemma TwoSmall()
    ensures Two(0) == 1 && Two(1) == 2 && Two(5) == 32
  {}

  // ---------------------------------------------------------------- exclusive or

  /** Exchanging two words through their difference, under a mask. */
  lemma XorSwap(a: S32, b: S32, swap: S32)
    requires swap == 0 || swap == -1
    ensures var x := And(Bits(swap, 32), Xor(Bits(a, 32), Bits(b, 32)));
            Signed(Xor(Bits(a, 32), x)) == (if swap == -1 then b else a) &&
            Signed(Xor(Bits(b, 32), x)) == (if swap == -1 then a else b)
  {
    hide Bits, Signed;
    var p, q := Bits(a, 32), Bits(b, 32);
    var x := And(Bits(swap, 32), Xor(p, q));
    MaskBits(swap, 32);
    Word32(a); Word32(b);
    if swap == -1 {
      assert Xor(p, x) == q && Xor(q, x) == p;
    } else {
      assert Xor(p, x) == p && Xor(q, x) == q;
    }
  }

  // ---------------------------------------------------------------- bytes

  function Or(a: seq<bool>, b: seq<bool>): (s: seq<bool>)
    requires |a| == |b|
    ensures |s| == |a|
  {
    seq(|a|, i requires 0 <= i < |a| => a[i] || b[i])
  }

  function Unsigned(s: seq<bool>): (r: nat)
    decreases |s|
  {
    if s == [] then 0 else (if s[0] then 1 else 0) + 2 * Unsigned(s[1..])
  }

  lemma {:induction false} UnsignedBits(x: int, n: nat)
    ensures Unsigned(Bits(x, n)) == x % Two(n)
    decreases n
  {
    if n > 0 {
      assert Bits(x, n)[1..] == Bits(x / 2, n - 1);
      UnsignedBits(x / 2, n - 1);
      LowDigit(x, Two(n - 1));
    }
  }

  lemma OrNext(a: int, b: int, n: nat)
    requires n > 0
    ensures Unsigned(Or(Bits(a, n), Bits(b, n)))
         == (if a % 2 == 1 || b % 2 == 1 then 1 else 0) + 2 * Unsigned(Or(Bits(a / 2, n - 1), Bits(b / 2, n - 1)))
  {
    var s := Or(Bits(a, n), Bits(b, n));
    assert Bits(a, n)[1..] == Bits(a / 2, n - 1) && Bits(b, n)[1..] == Bits(b / 2, n - 1);
    assert s[1..] == Or(Bits(a / 2, n - 1), Bits(b / 2, n - 1));
  }

  lemma OrZero(b: int, n: nat)
    ensures Or(Bits(0, n), Bits(b, n)) == Bits(b, n)
  {
    hide Bits;
    MaskBits(0, n);
  }

  lemma HalfDisjoint(b: int, m: int)
    requires m > 0 && b % (2 * m) == 0
    ensures b % 2 == 0 && (b / 2) % m == 0
  {
    LowDigit(b, m);
  }

  /** Numbers without a common bit are joined by adding them. */
  lemma {:induction false} OrDisjoint(a: int, b: int, k: nat, n: nat)
    requires k <= n && 0 <= a < Two(k) && 0 <= b < Two(n) && b % Two(k) == 0
    ensures Unsigned(Or(Bits(a, n), Bits(b, n))) == a + b
    decreases n
  {
    hide Bits, Or, Unsigned, Two;
    if k == 0 {
      TwoSmall();
      OrZero(b, n);
      UnsignedBits(b, n);
      DivModUnique(b, Two(n), 0, b);
    } else {
      var m, m' := Two(k - 1), Two(n - 1);
      TwoNext(k - 1); TwoNext(n - 1);
      OrNext(a, b, n);
      HalfDisjoint(b, m);
      OrDisjoint(a / 2, b / 2, k - 1, n - 1);
    }
  }

  /** Disjunction of bytes. */
  function Or8(a: Byte, b: Byte): (r: Byte) {
    var s := Or(Bits(a, 8), Bits(b, 8));
    UnsignedBound(s);
    assert Two(8) == 256;
    Unsigned(s)
  }

  lemma {:induction false} UnsignedBound(s: seq<bool>)
    ensures Unsigned(s) < Two(|s|)
    decreases |s|
  {
    if s != [] { UnsignedBound(s[1..]); }
  }

  lemma Or8Disjoint(a: Byte, b: Byte, k: nat)
    requires k <= 8 && a < Two(k) && b % Two(k) == 0
    ensures Or8(a, b) == a + b
  {
    assert Two(8) == 256;
    OrDisjoint(a, b, k, 8);
  }

  // ---------------------------------------------------------------- comparing words

  /** s32_eq: all ones if the arguments agree, zero otherwise.  Each step joins every bit with
      the ones below it, until the top bit is the conjunction of all. */
  function S32Eq(a: S32, b: S32): (r: S32)
    ensures r == if a == b then -1 else 0
  {
    var a0 := Not(Xor(Bits(a, 32), Bits(b, 32)));
    var a1 := And(a0, ShiftLeft(a0, 16));
    var a2 := And(a1, ShiftLeft(a1, 8));
    var a3 := And(a2, ShiftLeft(a2, 4));
    var a4 := And(a3, ShiftLeft(a3, 2));
    var a5 := And(a4, ShiftLeft(a4, 1));
    EqTop(a, b, a0, a1, a2, a3, a4, a5);
    TopBit(a5);
    Value32(a5) / 0x8000_0000
  }

  /** The top bit decides the sign. */
  lemma {:induction false} TopBit(s: seq<bool>)
    requires |s| > 0
    ensures Signed(s) < 0 <==> s[|s| - 1]
    decreases |s|
  {
    if |s| > 1 { TopBit(s[1..]); }
  }

  /** The w most significant bits are set. */
  ghost predicate TopSet(s: seq<bool>, w: nat) {
    |s| == 32 && w <= 32 && forall i :: 32 - w <= i < 32 ==> s[i]
  }

  lemma JoinStep(s: seq<bool>, w: nat)
    requires |s| == 32 && 2 * w <= 32
    ensures TopSet(And(s, ShiftLeft(s, w)), w) <==> TopSet(s, 2 * w)
  {
    var t := And(s, ShiftLeft(s, w));
    assert forall i :: 32 - w <= i < 32 ==> (t[i] <==> s[i] && s[i - w]);
    if TopSet(t, w) {
      forall i | 32 - 2 * w <= i < 32 ensures s[i] {
        if i >= 32 - w { assert t[i]; } else { assert t[i + w]; }
      }
    }
  }

  lemma EqTop(a: S32, b: S32, a0: seq<bool>, a1: seq<bool>, a2: seq<bool>, a3: seq<bool>, a4: seq<bool>, a5: seq<bool>)
    requires a0 == Not(Xor(Bits(a, 32), Bits(b, 32))) && a1 == And(a0, ShiftLeft(a0, 16))
             && a2 == And(a1, ShiftLeft(a1, 8))
    requires a3 == And(a2, ShiftLeft(a2, 4)) && a4 == And(a3, ShiftLeft(a3, 2)) && a5 == And(a4, ShiftLeft(a4, 1))
    ensures |a5| == 32 && (a5[31] <==> a == b)
  {
    var x, y := Bits(a, 32), Bits(b, 32);
    assert TopSet(a0, 32) <==> a == b by {
      Word32(a); Word32(b);
      if TopSet(a0, 32) {
        forall i | 0 <= i < 32 ensures x[i] == y[i] { assert a0[i]; }
        assert x == y;
      }
    }
    assert TopSet(a5, 1) <==> TopSet(a0, 32) by {
      hide And, ShiftLeft, TopSet, Bits;
      JoinStep(a4, 1); JoinStep(a3, 2); JoinStep(a2, 4); JoinStep(a1, 8); JoinStep(a0, 16);
    }
    assert a5[31] <==> TopSet(a5, 1);
  }
}
