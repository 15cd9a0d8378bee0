/** Big integers as little-endian sequences of 64-bit digits. */
module EccDigits {
  import opened Arith

  const BASE: int := 0x1_0000_0000_0000_0000
  const HALF: int := 0x1_0000_0000

  type Word = x: int | 0 <= x < 0x1_0000_0000_0000_0000

  /** BASE to the power n. */
  function Pow(n: nat): (r: nat)
    ensures r > 0
  {
    if n == 0 then 1 else BASE * Pow(n - 1)
  }

  /** The integer that a digit sequence stands for. */
  function Value(s: seq<Word>): (r: nat)
    decreases |s|
  {
    if s == [] then 0 else s[0] + BASE * Value(s[1..])
  }

  lemma {:induction false} ValueBound(s: seq<Word>)
    ensures Value(s) < Pow(|s|)
    decreases |s|
  {
    if s != [] { ValueBound(s[1..]); }
  }

  lemma {:induction false} PowAdd(m: nat, n: nat)
    ensures Pow(m + n) == Pow(m) * Pow(n)
  {
    if m > 0 {
      PowAdd(m - 1, n);
      MulAssoc(BASE, Pow(m - 1), Pow(n));
    }
  }

  lemma {:induction false} ValueConcat(a: seq<Word>, b: seq<Word>)
    ensures Value(a + b) == Value(a) + Pow(|a|) * Value(b)
    decreases |a|
  {
    if a == [] {
      assert a + b == b;
    } else {
      assert (a + b)[1..] == a[1..] + b;
      ValueConcat(a[1..], b);
      var x, v, w := Value(a[1..]), Pow(|a| - 1), Value(b);
      assert Value(a + b) == a[0] + BASE * (x + v * w);
      MulDistrib(BASE, x, v * w);
      MulAssoc(BASE, v, w);
    }
  }

  lemma ValueSnoc(a: seq<Word>, x: Word)
    ensures Value(a + [x]) == Value(a) + Pow(|a|) * x
  {
    ValueConcat(a, [x]);
    assert Value([x]) == x;
  }

  /** Adding one more digit at the top. */
  lemma ValuePrefix(s: seq<Word>, i: nat)
    requires i < |s|
    ensures Value(s[..i + 1]) == Value(s[..i]) + Pow(i) * s[i]
  {
    assert s[..i + 1] == s[..i] + [s[i]];
    ValueSnoc(s[..i], s[i]);
  }

  lemma ValueSplit(s: seq<Word>, i: nat)
    requires i <= |s|
    ensures Value(s) == Value(s[..i]) + Pow(i) * Value(s[i..])
  {
    assert s == s[..i] + s[i..];
    ValueConcat(s[..i], s[i..]);
  }

  lemma {:induction false} ValueZeros(s: seq<Word>)
    ensures (forall i :: 0 <= i < |s| ==> s[i] == 0) <==> Value(s) == 0
    decreases |s|
  {
    if s != [] {
      ValueZeros(s[1..]);
      assert forall i :: 0 < i < |s| ==> s[i] == s[1..][i - 1];
      if forall i :: 0 <= i < |s| ==> s[i] == 0 {
        assert forall i :: 0 <= i < |s[1..]| ==> s[1..][i] == s[i + 1];
      }
    }
  }

  /** Digits are unique. */
  lemma {:induction false} ValueInjective(a: seq<Word>, b: seq<Word>)
    requires |a| == |b| && Value(a) == Value(b)
    ensures a == b
    decreases |a|
  {
    if a != [] {
      ValueInjective(a[1..], b[1..]);
      assert a == [a[0]] + a[1..] && b == [b[0]] + b[1..];
    }
  }

  /** The most significant differing digit decides. */
  lemma ValueCompare(a: seq<Word>, b: seq<Word>, i: nat)
    requires |a| == |b| && i < |a| && a[i] < b[i] && a[i + 1..] == b[i + 1..]
    ensures Value(a) < Value(b)
  {
    ValueSplit(a, i + 1); ValueSplit(b, i + 1);
    ValuePrefix(a, i); ValuePrefix(b, i);
    ValueBound(a[..i]);
    assert Pow(i) * a[i] + Pow(i) <= Pow(i) * b[i] by { MulLt(Pow(i), a[i], b[i]); }
  }

  // ---------------------------------------------------------------- powers of two

  lemma Two64()
    ensures Two(64) == BASE && Two(32) == HALF && Two(63) * 2 == BASE
  {
    assert Two(4) == 16;
    assert Two(63) * 2 == Two(64);
    hide Two;
    TwoAdd(4, 4); TwoAdd(8, 8); TwoAdd(16, 16); TwoAdd(32, 32);
  }

  lemma {:induction false} PowTwo(n: nat)
    ensures Pow(n) == Two(64 * n)
  {
    if n > 0 {
      PowTwo(n - 1);
      Two64();
      TwoAdd(64, 64 * (n - 1));
    }
  }

  /** The number of bits of a value is determined by the powers of two around it. */
  ghost predicate BitLength(x: nat, bits: nat) {
    x < Two(bits) && (bits > 0 ==> Two(bits - 1) <= x)
  }

  lemma BitLengthUnique(x: nat, j: nat, k: nat)
    requires BitLength(x, j) && BitLength(x, k)
    ensures j == k
  {
    if j < k { TwoMono(j, k - 1); }
    if k < j { TwoMono(k, j - 1); }
  }
}
