/** Exclusive or on bytes and on machine words, and 128-bit counters. */
module AesBits {
  import opened Arith
  import opened TwosComplement

  lemma {:induction false} BitsBack(s: seq<bool>)
    ensures Bits(Unsigned(s), |s|) == s
    decreases |s|
  {
    if s != [] {
      BitsBack(s[1..]);
      assert s == [s[0]] + s[1..];
    }
  }

  function Xor8(a: Byte, b: Byte): (r: Byte) {
    var s := Xor(Bits(a, 8), Bits(b, 8));
    UnsignedBound(s);
    assert Two(8) == 256;
    Unsigned(s)
  }

  lemma ByteBits(a: Byte)
    ensures Unsigned(Bits(a, 8)) == a
  {
    hide Bits, Unsigned, Two;
    UnsignedBits(a, 8);
    TwoEight();
    DivModUnique(a, 256, 0, a);
  }

  /** Exclusive or with the same byte twice. */
  lemma XorTwice(a: Byte, b: Byte)
    ensures Xor8(Xor8(a, b), b) == a
  {
    hide Bits, Unsigned;
    var x, y := Bits(a, 8), Bits(b, 8);
    BitsBack(Xor(x, y));
    assert Xor(Xor(x, y), y) == x;
    ByteBits(a);
  }

  lemma XorZero(b: Byte)
    ensures Xor8(0, b) == b
  {
    hide Bits, Unsigned;
    MaskBits(0, 8);
    assert Xor(Bits(0, 8), Bits(b, 8)) == Bits(b, 8);
    ByteBits(b);
  }

  function XorBytes(a: seq<Byte>, b: seq<Byte>): (r: seq<Byte>)
    requires |a| <= |b|
    ensures |r| == |a|
  {
    seq(|a|, i requires 0 <= i < |a| => Xor8(a[i], b[i]))
  }

  lemma XorBytesTwice(a: seq<Byte>, b: seq<Byte>)
    requires |a| <= |b|
    ensures XorBytes(XorBytes(a, b), b) == a
  {
    forall i | 0 <= i < |a| ensures XorBytes(XorBytes(a, b), b)[i] == a[i] { XorTwice(a[i], b[i]); }
  }

  // ---------------------------------------------------------------- machine words

  /** A word of memory, least significant byte first. */
  function Load(s: seq<Byte>): nat {
    if s == [] then 0 else s[0] + 256 * Load(s[1..])
  }

  function Store(x: nat, n: nat): (s: seq<Byte>)
    ensures |s| == n
  {
    if n == 0 then [] else [x % 256] + Store(x / 256, n - 1)
  }

  lemma {:induction false} StoreLoad(s: seq<Byte>)
    ensures Store(Load(s), |s|) == s
    decreases |s|
  {
    if s != [] {
      StoreLoad(s[1..]);
      StoreCons(s[0], Load(s[1..]), |s| - 1);
      assert s == [s[0]] + s[1..];
    }
  }

  lemma StoreCons(lo: Byte, hi: nat, n: nat)
    ensures Store(lo + 256 * hi, n + 1) == [lo] + Store(hi, n)
  {
    DivModUnique(lo + 256 * hi, 256, hi, lo);
  }

  /** The exclusive or of two words of n bytes. */
  function XorWord(a: nat, b: nat, n: nat): nat {
    Unsigned(Xor(Bits(a, 8 * n), Bits(b, 8 * n)))
  }

  lemma {:induction false} BitsSplit(x: nat, m: nat, n: nat)
    ensures Bits(x, m + n) == Bits(x % Two(m), m) + Bits(x / Two(m), n)
    decreases m
  {
    if m == 0 {
      assert x % Two(0) == 0 && x / Two(0) == x;
    } else {
      BitsSplit(x / 2, m - 1, n);
      TwoNext(m - 1);
      var k: int := Two(m - 1);
      LowDigit(x, k);
      DivDiv(x, 2, k);
      var r := x % (2 * k);
      assert r % 2 == x % 2 && r / 2 == (x / 2) % k;
    }
  }

  lemma {:induction false} UnsignedConcat(a: seq<bool>, b: seq<bool>)
    ensures Unsigned(a + b) == Unsigned(a) + Two(|a|) * Unsigned(b)
    decreases |a|
  {
    if a == [] {
      assert a + b == b;
    } else {
      assert (a + b)[1..] == a[1..] + b;
      UnsignedConcat(a[1..], b);
      TwoNext(|a| - 1);
      MulAssoc(2, Two(|a| - 1), Unsigned(b));
    }
  }

  /** Words are combined byte by byte. */
  lemma {:induction false} XorWordBytes(a: seq<Byte>, b: seq<Byte>)
    requires |a| == |b|
    ensures Store(XorWord(Load(a), Load(b), |a|), |a|) == XorBytes(a, b)
    decreases |a|
  {
    hide XorWord, Xor8, Store;
    StoreNothing();
    if a != [] {
      var n := |a| - 1;
      XorWordBytes(a[1..], b[1..]);
      StoreCons(Xor8(a[0], b[0]), XorWord(Load(a[1..]), Load(b[1..]), n), n);
      XorWordSplit(a[0], Load(a[1..]), b[0], Load(b[1..]), n);
      var r := XorBytes(a, b);
      assert XorBytes(a[1..], b[1..]) == r[1..];
      assert r == [r[0]] + r[1..];
    }
  }

  lemma StoreNothing()
    ensures forall x :: Store(x, 0) == []
  {}

  lemma XorWordSplit(a0: Byte, a1: nat, b0: Byte, b1: nat, n: nat)
    ensures XorWord(a0 + 256 * a1, b0 + 256 * b1, n + 1) == Xor8(a0, b0) + 256 * XorWord(a1, b1, n)
  {
    hide Bits, Unsigned, Two;
    TwoEight();
    assert 8 * (n + 1) == 8 + 8 * n;
    var a: nat, b: nat := a0 + 256 * a1, b0 + 256 * b1;
    BitsSplit(a, 8, 8 * n); BitsSplit(b, 8, 8 * n);
    DivModUnique(a, 256, a1, a0); DivModUnique(b, 256, b1, b0);
    var x, y := Xor(Bits(a0, 8), Bits(b0, 8)), Xor(Bits(a1, 8 * n), Bits(b1, 8 * n));
    assert Xor(Bits(a, 8 + 8 * n), Bits(b, 8 + 8 * n)) == x + y;
    UnsignedConcat(x, y);
  }

  lemma TwoEight()
    ensures Two(8) == 256
  {}

  // ---------------------------------------------------------------- counters

  /** A big-endian number. */
  function Counter(s: seq<Byte>): nat
    decreases |s|
  {
    if s == [] then 0 else 256 * Counter(s[..|s| - 1]) + s[|s| - 1]
  }

  lemma {:induction false} CounterBound(s: seq<Byte>)
    ensures Counter(s) < Two(8 * |s|)
    decreases |s|
  {
    if s != [] {
      CounterBound(s[..|s| - 1]);
      TwoEight();
      TwoAdd(8, 8 * (|s| - 1));
    }
  }

  lemma {:induction false} CounterInjective(a: seq<Byte>, b: seq<Byte>)
    requires |a| == |b| && Counter(a) == Counter(b)
    ensures a == b
    decreases |a|
  {
    if a != [] {
      var n := |a| - 1;
      CounterInjective(a[..n], b[..n]);
      assert a == a[..n] + [a[n]] && b == b[..n] + [b[n]];
    }
  }

  lemma {:induction false} CounterConcat(a: seq<Byte>, b: seq<Byte>)
    ensures Counter(a + b) == Counter(a) * Two(8 * |b|) + Counter(b)
    decreases |b|
  {
    if b == [] {
      assert a + b == a;
    } else {
      var n := |b| - 1;
      assert (a + b)[..|a + b| - 1] == a + b[..n];
      CounterConcat(a, b[..n]);
      TwoEight();
      TwoAdd(8, 8 * n);
      MulAssoc(Counter(a), 256, Two(8 * n));
      MulAssoc(256, Counter(a), Two(8 * n));
      MulDistrib(256, Counter(a) * Two(8 * n), Counter(b[..n]));
    }
  }
}
