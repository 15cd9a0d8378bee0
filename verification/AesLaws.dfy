/** What the modes compute, byte by byte and block by block. */
module AesLaws {
  import opened Arith
  import opened TwosComplement
  import opened AesBits
  import opened AesModes

  // ---------------------------------------------------------------- bytes

  /** Exclusive or: each bit of the result is set exactly when the bits of the operands differ. */
  lemma Xor8Bit(a: Byte, b: Byte, k: nat)
    requires k < 8
    ensures Xor8(a, b) / Two(k) % 2 == 1 <==> a / Two(k) % 2 != b / Two(k) % 2
  {
    hide Bits, Unsigned, Two;
    var s := Xor(Bits(a, 8), Bits(b, 8));
    BitsBack(s);
    BitAt(Xor8(a, b), 8, k);
    BitAt(a, 8, k);
    BitAt(b, 8, k);
    assert Bits(Xor8(a, b), 8)[k] == (Bits(a, 8)[k] != Bits(b, 8)[k]);
  }

  lemma {:induction false} BitAt(x: nat, n: nat, k: nat)
    requires k < n
    ensures Bits(x, n)[k] <==> x / Two(k) % 2 == 1
    decreases k
  {
    if k > 0 {
      BitAt(x / 2, n - 1, k - 1);
      TwoNext(k - 1);
      DivDiv(x, 2, Two(k - 1));
    }
  }

  // ---------------------------------------------------------------- the counter

  /** A counter of one byte is the byte, and in front of a counter a byte counts for all that the
      bytes behind it can hold. */
  lemma CounterDigits(x: Byte, s: seq<Byte>)
    ensures Counter([x]) == x && Counter([x] + s) == x * Two(8 * |s|) + Counter(s)
  {
    hide Counter, Two;
    OneByte(x);
    CounterConcat([x], s);
  }

  /** Adding one: the bytes of 255 at the end become 0, and the byte in front of them, if there is
      one, grows by one. */
  lemma IncrementedBytes(a: seq<Byte>, b: seq<Byte>, n: nat)
    requires n <= |a| && (forall k :: n <= k < |a| ==> a[k] == 255) && (n > 0 ==> a[n - 1] < 255)
    ensures Incremented(a, b)
            <==> b == (if n == 0 then [] else a[..n - 1] + [a[n - 1] + 1]) + Repeated(0, |a| - n)
  {
    hide Counter, Two;
    var z := Repeated(0, |a| - n);
    var head := if n == 0 then [] else a[..n - 1] + [a[n - 1] + 1];
    var c := head + z;
    CounterBound(c);
    if n == 0 {
      AllFull(a);
      AllZero(c);
      DivModUnique(Counter(a) + 1, Two(8 * |a|), 1, 0);
    } else {
      AddOneBytes(a, c, n);
      DivModUnique(Counter(a) + 1, Two(8 * |a|), 0, Counter(c));
    }
    if Incremented(a, b) { CounterInjective(b, c); }
  }

  function Repeated(x: Byte, n: nat): (s: seq<Byte>)
    ensures |s| == n && forall k :: 0 <= k < n ==> s[k] == x
  {
    seq(n, _ => x)
  }

  lemma AddOneBytes(a: seq<Byte>, c: seq<Byte>, n: nat)
    requires 0 < n <= |a| == |c| && (forall k :: n <= k < |a| ==> a[k] == 255 && c[k] == 0)
    requires a[n - 1] < 255 && c[n - 1] == a[n - 1] + 1 && c[..n - 1] == a[..n - 1]
    ensures Counter(c) == Counter(a) + 1
  {
    hide Counter, Two;
    var h, s, t := a[..n - 1], a[n..], c[n..];
    assert a == h + ([a[n - 1]] + s) && c == h + ([c[n - 1]] + t);
    AllFull(s);
    AllZero(t);
    AddOneDigit(h, a[n - 1], s, t);
  }

  lemma AddOneDigit(h: seq<Byte>, x: Byte, s: seq<Byte>, t: seq<Byte>)
    requires x < 255 && |s| == |t| && Counter(s) == Two(8 * |s|) - 1 && Counter(t) == 0
    ensures Counter(h + ([x + 1] + t)) == Counter(h + ([x] + s)) + 1
  {
    hide Counter, Two;
    CounterConcat(h, [x] + s);
    CounterConcat(h, [x + 1] + t);
    CounterDigits(x, s);
    CounterDigits(x + 1, t);
    MulDistrib(Two(8 * |s|), x, 1);
  }

  lemma {:induction false} AllFull(s: seq<Byte>)
    requires forall k :: 0 <= k < |s| ==> s[k] == 255
    ensures Counter(s) == Two(8 * |s|) - 1
    decreases |s|
  {
    if s != [] {
      AllFull(s[..|s| - 1]);
      TwoEight();
      TwoAdd(8, 8 * (|s| - 1));
    }
  }

  lemma {:induction false} AllZero(s: seq<Byte>)
    requires forall k :: 0 <= k < |s| ==> s[k] == 0
    ensures Counter(s) == 0
    decreases |s|
  {
    if s != [] { AllZero(s[..|s| - 1]); }
  }

  // ---------------------------------------------------------------- counter mode

  /** Byte l is combined with byte l mod 16 of the cipher of the block whose number is the counter
      plus l / 16, modulo 2^128. */
  lemma CtrByte(e: Cipher, ctr: seq<Byte>, s: seq<Byte>, l: nat, block: seq<Byte>)
    requires |ctr| == |block| == 16 && l < |s| && |e(block)| == 16
    requires Counter(block) == (Counter(ctr) + l / 16) % Two(128)
    ensures Ctr(e, ctr, s)[l] == Xor8(s[l], e(block)[l % 16])
  {
    hide Counter, Two, Plus, Xor8;
    PlusCounter(ctr, l / 16);
    CounterInjective(Plus(ctr, l / 16), block);
  }

  /** After n bytes the counter has advanced by the number of blocks that were begun. */
  lemma CtrCounter(ctr: seq<Byte>, n: nat, blocks: nat)
    requires |ctr| == 16 && n <= 16 * blocks < n + 16
    ensures |After(ctr, n)| == 16 && Counter(After(ctr, n)) == (Counter(ctr) + blocks) % Two(128)
  {
    hide Counter, Two, Plus;
    PlusCounter(ctr, blocks);
  }

  // ---------------------------------------------------------------- cipher block chaining

  /** Block i of a sequence. */
  function Block(s: seq<Byte>, i: nat): (b: seq<Byte>)
    requires 16 * i + 16 <= |s|
    ensures |b| == 16 && forall k :: 0 <= k < 16 ==> b[k] == s[16 * i + k]
  {
    s[16 * i..16 * i + 16]
  }

  /** The block before block i: the vector in front of the first. */
  function BlockBefore(iv: seq<Byte>, s: seq<Byte>, i: nat): seq<Byte>
    requires 16 * i + 16 <= |s|
  {
    if i == 0 then iv else Block(s, i - 1)
  }

  /** x is the exclusive or of two blocks. */
  predicate Combined(x: seq<Byte>, a: seq<Byte>, b: seq<Byte>) {
    |x| == |a| == |b| == 16 && forall k :: 0 <= k < 16 ==> x[k] == Xor8(a[k], b[k])
  }

  /** Every cipher block is the cipher of its plain block combined with the cipher block before. */
  lemma {:induction false} CbcEncryptedBlock(e: Cipher, iv: seq<Byte>, p: seq<Byte>, i: nat, x: seq<Byte>)
    requires Blocks(e) && |iv| == 16 && |p| % 16 == 0 && 16 * i + 16 <= |p|
    ensures var c := CbcEncrypt(e, iv, p);
            |c| == |p| && (Combined(x, Block(p, i), BlockBefore(iv, c, i)) ==> Block(c, i) == e(x))
    decreases i
  {
    hide CbcEncrypt, Xor8, XorBytes;
    var c, rest := FirstBlock(e, iv, p, []);
    var t := CbcEncrypt(e, c, rest);
    CbcLength(e, c, rest);
    FirstCipher(e, iv, p);
    var all := CbcEncrypt(e, iv, p);
    assert all == c + t;
    if i == 0 {
      assert Block(all, 0) == c;
      Pointwise(x, p[..BLOCK], iv);
    } else {
      assert Block(rest, i - 1) == Block(p, i);
      assert Block(t, i - 1) == Block(all, i);
      assert BlockBefore(c, t, i - 1) == BlockBefore(iv, all, i);
      CbcEncryptedBlock(e, c, rest, i - 1, x);
    }
  }

  lemma FirstCipher(e: Cipher, iv: seq<Byte>, p: seq<Byte>)
    requires Blocks(e) && |iv| == BLOCK && |p| >= BLOCK
    ensures var c := e(XorBytes(p[..BLOCK], iv)); |c| == BLOCK && CbcEncrypt(e, iv, p) == c + CbcEncrypt(e, c, p[BLOCK..])
  {}

  lemma FirstPlain(d: Cipher, iv: seq<Byte>, c: seq<Byte>)
    requires Blocks(d) && |iv| == BLOCK && |c| >= BLOCK
    ensures |d(c[..BLOCK])| == BLOCK
            && CbcDecrypt(d, iv, c) == XorBytes(d(c[..BLOCK]), iv) + CbcDecrypt(d, c[..BLOCK], c[BLOCK..])
  {
    assert |d(c[..BLOCK])| == BLOCK;
  }

  lemma Pointwise(x: seq<Byte>, a: seq<Byte>, b: seq<Byte>)
    requires |a| == |b| == 16
    ensures Combined(x, a, b) <==> x == XorBytes(a, b)
  {
    hide Xor8;
  }

  /** Every plain block is the deciphered block combined with the cipher block before. */
  lemma {:induction false} CbcDecryptedBlock(d: Cipher, iv: seq<Byte>, c: seq<Byte>, i: nat)
    requires Blocks(d) && |iv| == 16 && |c| % 16 == 0 && 16 * i + 16 <= |c|
    ensures |CbcDecrypt(d, iv, c)| == |c|
            && Combined(Block(CbcDecrypt(d, iv, c), i), d(Block(c, i)), BlockBefore(iv, c, i))
    decreases i
  {
    hide CbcDecrypt, Xor8, XorBytes;
    CbcLength(d, iv, c);
    FirstPlain(d, iv, c);
    var first, rest := c[..BLOCK], c[BLOCK..];
    var x, t := XorBytes(d(first), iv), CbcDecrypt(d, first, rest);
    CbcLength(d, first, rest);
    var all := CbcDecrypt(d, iv, c);
    assert all == x + t;
    if i == 0 {
      assert Block(all, 0) == x && Block(c, 0) == first;
      Pointwise(x, d(first), iv);
    } else {
      CbcDecryptedBlock(d, first, rest, i - 1);
      assert Block(rest, i - 1) == Block(c, i);
      assert Block(t, i - 1) == Block(all, i);
      assert BlockBefore(first, rest, i - 1) == BlockBefore(iv, c, i);
    }
  }

  /** The vector that either direction leaves is the last cipher block. */
  lemma LastBlock(iv: seq<Byte>, c: seq<Byte>, i: nat)
    requires |c| == 16 * i
    ensures Last(iv, c) == if i == 0 then iv else Block(c, i - 1)
  {}
}
