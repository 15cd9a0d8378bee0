/** Modular addition, subtraction and binary inversion. */
module EccMod {
  import opened Arith
  import opened EccDigits
  import opened EccVli

  method ModAdd(r: array<Word>, a: array<Word>, b: array<Word>, m: array<Word>, n: nat)
    requires r.Length == a.Length == b.Length == m.Length == n && r != m
    requires Val(a, 0, n) < Val(m, 0, n) && Val(b, 0, n) < Val(m, 0, n)
    modifies r
    ensures Val(r, 0, n) == (old(Val(a, 0, n)) + old(Val(b, 0, n))) % Val(m, 0, n)
  {
    hide Value, Pow;
    ghost var x: int, y: int, p: int := Val(a, 0, n), Val(b, 0, n), Val(m, 0, n);
    ValueBound(m[0..n]);
    var carry := Add(r, 0, a, 0, b, 0, n);
    ghost var t := Val(r, 0, n);
    ValueBound(r[0..n]);
    var c := Cmp(r, 0, m, 0, n);
    if carry != 0 || c >= 0 {
      var borrow := Sub(r, 0, r, 0, m, 0, n);
      ValueBound(r[0..n]);
      DivModUnique(x + y, p, 1, x + y - p);
    } else {
      DivModUnique(x + y, p, 0, x + y);
    }
  }

  method ModSub(r: array<Word>, a: array<Word>, b: array<Word>, m: array<Word>, n: nat)
    requires r.Length == a.Length == b.Length == m.Length == n && r != m
    requires Val(a, 0, n) < Val(m, 0, n) && Val(b, 0, n) < Val(m, 0, n)
    modifies r
    ensures Val(r, 0, n) == (old(Val(a, 0, n)) - old(Val(b, 0, n))) % Val(m, 0, n)
  {
    hide Value, Pow;
    ghost var x: int, y: int, p: int := Val(a, 0, n), Val(b, 0, n), Val(m, 0, n);
    ValueBound(m[0..n]);
    var borrow := Sub(r, 0, a, 0, b, 0, n);
    ValueBound(r[0..n]);
    if borrow != 0 {
      var carry := Add(r, 0, r, 0, m, 0, n);
      ValueBound(r[0..n]);
      DivModUnique(x - y, p, -1, x - y + p);
    } else {
      DivModUnique(x - y, p, 0, x - y);
    }
  }

  // ---------------------------------------------------------------- halving modulo an odd number

  lemma ValueParity(s: seq<Word>)
    requires s != []
    ensures Value(s) % 2 == s[0] % 2
  {
    var h := Value(s[1..]);
    assert Value(s) == s[0] + 2 * ((BASE / 2) * h);
  }

  lemma TopDigit(s: seq<Word>)
    requires s != [] && 2 * Value(s) < Pow(|s|)
    ensures s[|s| - 1] < TOP_BIT
  {
    hide Value, Pow;
    var k := |s| - 1;
    PowSucc(k);
    ValuePrefix(s, k);
    assert s[..k + 1] == s;
    if s[k] >= TOP_BIT { MulLe(Pow(k), TOP_BIT, s[k]); }
  }

  lemma SetTop(s: seq<Word>, d: Word)
    requires s != [] && s[|s| - 1] as int + TOP_BIT == d
    ensures 2 * Value(s[|s| - 1 := d]) == 2 * Value(s) + Pow(|s|)
  {
    hide Value, Pow;
    var k := |s| - 1;
    var t := s[k := d];
    PowSucc(k);
    ValuePrefix(s, k); ValuePrefix(t, k);
    assert s[..k + 1] == s && t[..k + 1] == t && t[..k] == s[..k];
    MulDistrib(Pow(k), s[k], TOP_BIT);
  }

  /** An odd number gets the modulus added before the shift, and the carry becomes the top bit:
      the half of u, or of u + mod where u is odd, even when the sum has one bit too many. */
  method HalveMod(u: array<Word>, m: array<Word>, n: nat)
    requires u.Length == m.Length == n > 0 && u != m && Val(m, 0, n) % 2 == 1
    modifies u
    ensures 2 * Val(u, 0, n) == old(Val(u, 0, n)) + if old(Val(u, 0, n)) % 2 == 1 then Val(m, 0, n) else 0
  {
    hide Value, Pow;
    ghost var x, p := Val(u, 0, n), Val(m, 0, n);
    ValueParity(u[0..n]);
    var carry := 0;
    if u[0] % 2 == 1 {
      carry := Add(u, 0, u, 0, m, 0, n);
    }
    ghost var t: int := if x % 2 == 1 then x + p else x;
    ghost var low := Val(u, 0, n);
    ValueBound(u[0..n]);
    PowEven(n);
    RShift1(u, 0, n);
    assert 2 * (low / 2) == low;
    if carry != 0 {
      TopDigit(u[0..n]);
      ghost var s := u[0..n];
      u[n - 1] := u[n - 1] + TOP_BIT;
      SetTop(s, u[n - 1]);
      assert u[0..n] == s[n - 1 := u[n - 1]];
    }
  }

  lemma PowEven(n: nat)
    requires n > 0
    ensures Pow(n) % 2 == 0
  {
    var h := Pow(n - 1);
    assert Pow(n) == 2 * ((BASE / 2) * h);
  }

  lemma HalveCong(y: int, z: int, p: int)
    requires p > 0 && p % 2 == 1 && Cong(2 * y, 2 * z, p)
    ensures Cong(y, z, p)
  {
    var k := CongTo(2 * y, 2 * z, p);
    var h := p / 2;
    assert p * k == 2 * (h * k) + k;
    var j := y - z - h * k;
    assert k == 2 * j;
    MulAssoc(p, 2, j);
    assert y == z + p * j;
    CongFrom(y, z, j, p);
  }

  /** Dividing both sides of u * x = a by two, modulo an odd p. */
  lemma HalveInvariant(u: int, u': int, x: int, a: int, p: int)
    requires p > 0 && p % 2 == 1 && Cong(u * x, a, p) && a % 2 == 0 && (2 * u' == u || 2 * u' == u + p)
    ensures Cong(u' * x, a / 2, p)
  {
    if 2 * u' == u {
      assert 2 * (u' * x) == u * x;
    } else {
      assert 2 * (u' * x) == u * x + p * x;
      CongFrom(2 * (u' * x), u * x, x, p);
    }
    HalveCong(u' * x, a / 2, p);
  }

  // ---------------------------------------------------------------- common divisors

  ghost predicate Common(d: int, x: int, y: int) { d > 0 && Divides(d, x) && Divides(d, y) }

  /** g is a common divisor and every common divisor divides it. */
  ghost predicate IsGcd(g: int, x: int, y: int) {
    Common(g, x, y) && forall d :: Common(d, x, y) ==> Divides(d, g)
  }

  lemma EvenFactor(d: int, k: int)
    requires d % 2 == 1 && (d * k) % 2 == 0
    ensures k % 2 == 0
  {
    var e := d / 2;
    assert d * k == 2 * (e * k) + k;
  }

  /** An odd number divides an even one exactly when it divides its half. */
  lemma DividesHalf(d: int, a: int)
    requires d > 0 && d % 2 == 1 && a % 2 == 0
    ensures Divides(d, a) <==> Divides(d, a / 2)
  {
    if Divides(d, a) {
      var k := DividesTo(d, a);
      EvenFactor(d, k);
      MulAssoc(d, 2, k / 2);
      DividesFrom(d, a / 2, k / 2);
    }
    if Divides(d, a / 2) {
      var k := DividesTo(d, a / 2);
      MulAssoc(d, k, 2);
      DividesFrom(d, a, k * 2);
    }
  }

  lemma OddDivisor(d: int, b: int)
    requires d > 0 && Divides(d, b) && b % 2 == 1
    ensures d % 2 == 1
  {
    var k := DividesTo(d, b);
    if d % 2 == 0 {
      MulAssoc(2, d / 2, k);
    }
  }

  /** A step of the binary algorithm keeps every common divisor. */
  lemma CommonStep(d: int, a: int, b: int)
    requires b % 2 == 1
    ensures a % 2 == 0 ==> (Common(d, a / 2, b) <==> Common(d, a, b))
    ensures a % 2 == 1 ==> (Common(d, (a - b) / 2, b) <==> Common(d, a, b))
  {
    if d > 0 && Divides(d, b) {
      OddDivisor(d, b);
      if a % 2 == 0 {
        DividesHalf(d, a);
      } else {
        DividesSub(d, a, b);
        DividesHalf(d, a - b);
      }
    }
  }

  /** The state of the inversion loop. */
  ghost predicate Inverting(a: int, b: int, u: int, v: int, x: int, p: int) {
    p > 1 && p % 2 == 1 && a > 0 && b > 0 && (a % 2 == 1 || b % 2 == 1) && 0 <= u < p && 0 <= v < p &&
    Cong(u * x, a, p) && Cong(v * x, b, p) && forall d :: Common(d, a, b) <==> Common(d, x, p)
  }

  lemma InvertStart(x: int, p: int)
    requires p > 1 && p % 2 == 1 && x > 0
    ensures Inverting(x, p, 1, 0, x, p)
  {
    CongFrom(0 * x, p, -1, p);
  }

  lemma InvertSwap(a: int, b: int, u: int, v: int, x: int, p: int)
    requires Inverting(a, b, u, v, x, p)
    ensures Inverting(b, a, v, u, x, p)
  {
    assert forall d :: Common(d, b, a) <==> Common(d, a, b);
  }

  /** The halving branch. */
  lemma InvertHalve(a: int, b: int, u: int, v: int, u': int, x: int, p: int)
    requires Inverting(a, b, u, v, x, p) && a % 2 == 0
    requires 2 * u' == u + if u % 2 == 1 then p else 0
    ensures Inverting(a / 2, b, u', v, x, p)
  {
    HalveInvariant(u, u', x, a, p);
    forall d ensures Common(d, a / 2, b) <==> Common(d, x, p) { CommonStep(d, a, b); }
  }

  lemma SubtractCong(u: int, v: int, w: int, x: int, a: int, b: int, p: int)
    requires p > 0 && Cong(u * x, a, p) && Cong(v * x, b, p) && (w == u - v || w == u - v + p)
    ensures Cong(w * x, a - b, p)
  {
    hide Cong;
    CongAdd(u * x, a, v * x, b, p);
    var k := if w == u - v then 0 else 1;
    SubtractExpand(u, v, w, x, k, p);
    CongFrom(w * x, u * x - v * x, k * x, p);
    CongTrans(w * x, u * x - v * x, a - b, p);
  }

  lemma SubtractExpand(u: int, v: int, w: int, x: int, k: int, p: int)
    requires k == 0 || k == 1
    requires w == u - v + if k == 1 then p else 0
    ensures w * x == u * x - v * x + p * (k * x)
  {
    MulDistrib(x, u, v);
    if k == 1 {
      MulDistrib(x, u - v, p);
      assert k * x == x;
    } else {
      assert k * x == 0;
    }
  }

  /** The subtracting branch: both odd, a the larger. */
  lemma InvertSubtract(a: int, b: int, u: int, v: int, w: int, u': int, x: int, p: int)
    requires Inverting(a, b, u, v, x, p) && a % 2 == 1 && b % 2 == 1 && a > b
    requires w == u - v + if u < v then p else 0
    requires 2 * u' == w + if w % 2 == 1 then p else 0
    ensures Inverting((a - b) / 2, b, u', v, x, p)
  {
    hide Cong, Divides;
    SubtractCong(u, v, w, x, a, b, p);
    HalveInvariant(w, u', x, a - b, p);
    forall d ensures Common(d, (a - b) / 2, b) <==> Common(d, x, p) { CommonStep(d, a, b); }
  }

  lemma InvertEnd(a: int, u: int, v: int, x: int, p: int)
    requires Inverting(a, a, u, v, x, p)
    ensures IsGcd(a, x, p) && Cong(u * x, a, p)
  {
    DividesFrom(a, a, 1);
    assert Common(a, a, a);
    forall d | Common(d, x, p) ensures Divides(d, a) { assert Common(d, a, a); }
  }

  /** Replacing u by u - v modulo p on digit arrays: the dropped carry and borrow cancel. */
  method SubMod(u: array<Word>, v: array<Word>, m: array<Word>, n: nat)
    requires u.Length == v.Length == m.Length == n && u != m && u != v
    requires Val(u, 0, n) < Val(m, 0, n) && Val(v, 0, n) < Val(m, 0, n)
    modifies u
    ensures Val(u, 0, n) == old(Val(u, 0, n)) - Val(v, 0, n) + if old(Val(u, 0, n)) < Val(v, 0, n) then Val(m, 0, n) else 0
  {
    hide Value, Pow;
    ghost var x: int, y: int, p: int := Val(u, 0, n), Val(v, 0, n), Val(m, 0, n);
    ValueBound(m[0..n]);
    var less := Cmp(u, 0, v, 0, n);
    var carry := 0;
    if less < 0 {
      carry := Add(u, 0, u, 0, m, 0, n);
    }
    ValueBound(u[0..n]);
    var borrow := Sub(u, 0, u, 0, v, 0, n);
    ValueBound(u[0..n]);
  }

  /** The halving branch on digit arrays; the other branch is the same with the pairs swapped. */
  method StepHalve(a: array<Word>, b: array<Word>, u: array<Word>, v: array<Word>, m: array<Word>, n: nat,
                   ghost x: int, ghost p: int)
    requires a.Length == b.Length == u.Length == v.Length == m.Length == n > 0
    requires a != b && a != u && a != v && a != m && u != b && u != v && u != m
    requires p == Val(m, 0, n) && Inverting(Val(a, 0, n), Val(b, 0, n), Val(u, 0, n), Val(v, 0, n), x, p)
             && Val(a, 0, n) % 2 == 0
    modifies a, u
    ensures Inverting(Val(a, 0, n), Val(b, 0, n), Val(u, 0, n), Val(v, 0, n), x, p) && Val(a, 0, n) < old(Val(a, 0, n))
  {
    hide Value, Pow, Cong, Common;
    ghost var A: int, B: int, U: int, V: int := Val(a, 0, n), Val(b, 0, n), Val(u, 0, n), Val(v, 0, n);
    RShift1(a, 0, n);
    HalveMod(u, m, n);
    InvertHalve(A, B, U, V, Val(u, 0, n), x, p);
  }

  /** The subtracting branch on digit arrays. */
  method StepSubtract(a: array<Word>, b: array<Word>, u: array<Word>, v: array<Word>, m: array<Word>, n: nat,
                      ghost x: int, ghost p: int)
    requires a.Length == b.Length == u.Length == v.Length == m.Length == n > 0
    requires a != b && a != u && a != v && a != m && u != b && u != v && u != m
    requires p == Val(m, 0, n) && Inverting(Val(a, 0, n), Val(b, 0, n), Val(u, 0, n), Val(v, 0, n), x, p)
    requires Val(a, 0, n) % 2 == 1 && Val(b, 0, n) % 2 == 1 && Val(a, 0, n) > Val(b, 0, n)
    modifies a, u
    ensures Inverting(Val(a, 0, n), Val(b, 0, n), Val(u, 0, n), Val(v, 0, n), x, p) && Val(a, 0, n) < old(Val(a, 0, n))
  {
    hide Value, Pow, Cong, Common;
    ghost var A: int, B: int, U: int, V: int := Val(a, 0, n), Val(b, 0, n), Val(u, 0, n), Val(v, 0, n);
    ValueBound(a[0..n]); ValueBound(b[0..n]);
    var borrow := Sub(a, 0, a, 0, b, 0, n);
    ValueBound(a[0..n]);
    assert Val(a, 0, n) == A - B;
    RShift1(a, 0, n);
    SubMod(u, v, m, n);
    ghost var W := Val(u, 0, n);
    HalveMod(u, m, n);
    InvertSubtract(A, B, U, V, W, Val(u, 0, n), x, p);
  }

  /** The loop of `vli_modInv`; the sum a + b falls in every iteration. */
  method InvertLoop(a: array<Word>, b: array<Word>, u: array<Word>, v: array<Word>, m: array<Word>, n: nat,
                    ghost x: int, ghost p: int)
    requires a.Length == b.Length == u.Length == v.Length == m.Length == n > 0
    requires a != b && a != u && a != v && a != m && b != u && b != v && b != m && u != v && u != m && v != m
    requires p == Val(m, 0, n) && Inverting(Val(a, 0, n), Val(b, 0, n), Val(u, 0, n), Val(v, 0, n), x, p)
    modifies a, b, u, v
    ensures Inverting(Val(a, 0, n), Val(b, 0, n), Val(u, 0, n), Val(v, 0, n), x, p) && Val(a, 0, n) == Val(b, 0, n)
  {
    hide Value, Pow, Inverting, Cong;
    var cmp := Cmp(a, 0, b, 0, n);
    while cmp != 0
      invariant Inverting(Val(a, 0, n), Val(b, 0, n), Val(u, 0, n), Val(v, 0, n), x, p)
      invariant cmp == if Val(a, 0, n) < Val(b, 0, n) then -1 else if Val(a, 0, n) > Val(b, 0, n) then 1 else 0
      decreases Val(a, 0, n) + Val(b, 0, n)
    {
      ghost var A: int, B: int, U: int, V: int := Val(a, 0, n), Val(b, 0, n), Val(u, 0, n), Val(v, 0, n);
      InvertRanges(A, B, U, V, x, p);
      InvertSwap(A, B, U, V, x, p);
      ValueParity(a[0..n]); ValueParity(b[0..n]);
      if a[0] % 2 == 0 {
        StepHalve(a, b, u, v, m, n, x, p);
      } else if b[0] % 2 == 0 {
        StepHalve(b, a, v, u, m, n, x, p);
        InvertSwap(Val(b, 0, n), A, Val(v, 0, n), U, x, p);
      } else if cmp > 0 {
        StepSubtract(a, b, u, v, m, n, x, p);
      } else {
        StepSubtract(b, a, v, u, m, n, x, p);
        InvertSwap(Val(b, 0, n), A, Val(v, 0, n), U, x, p);
      }
      cmp := Cmp(a, 0, b, 0, n);
    }
  }

  /** `vli_modInv`: for every odd modulus above one the loop ends, and the result times the
      input is congruent to their greatest common divisor; so it is the inverse exactly when
      the input is coprime to the modulus.  A zero input gives zero. */
  method ModInv(result: array<Word>, input: array<Word>, m: array<Word>, n: nat) returns (ghost g: int)
    requires result.Length == input.Length == m.Length == n > 0 && result != m
    requires Val(m, 0, n) > 1 && Val(m, 0, n) % 2 == 1
    modifies result
    ensures old(Val(input, 0, n)) == 0 ==> Val(result, 0, n) == 0
    ensures old(Val(input, 0, n)) > 0 ==>
              0 <= Val(result, 0, n) < Val(m, 0, n) && IsGcd(g, old(Val(input, 0, n)), Val(m, 0, n)) &&
              Cong(Val(result, 0, n) * old(Val(input, 0, n)), g, Val(m, 0, n))
  {
    hide Value, Pow, Inverting, IsGcd, Cong;
    g := 0;
    var zero := IsZero(input, 0, n);
    if zero {
      Clear(result, 0, n);
      return;
    }
    ghost var x: int, p: int := Val(input, 0, n), Val(m, 0, n);
    var a, b, u, v := new Word[n], new Word[n], new Word[n], new Word[n];
    Set(a, 0, input, 0, n);
    Set(b, 0, m, 0, n);
    Clear(u, 0, n);
    ghost var zeros := u[0..n];
    u[0] := 1;
    OneDigit(zeros);
    assert u[0..n] == zeros[0 := 1];
    Clear(v, 0, n);
    InvertStart(x, p);
    InvertLoop(a, b, u, v, m, n, x, p);
    InvertRanges(Val(a, 0, n), Val(b, 0, n), Val(u, 0, n), Val(v, 0, n), x, p);
    InvertEnd(Val(a, 0, n), Val(u, 0, n), Val(v, 0, n), x, p);
    g := Val(a, 0, n);
    Set(result, 0, u, 0, n);
  }

  lemma OneDigit(s: seq<Word>)
    requires s != [] && forall i :: 0 <= i < |s| ==> s[i] == 0
    ensures Value(s[0 := 1]) == 1
  {
    assert s[0 := 1][1..] == s[1..];
    ValueZeros(s[1..]);
  }

  lemma InvertRanges(a: int, b: int, u: int, v: int, x: int, p: int)
    requires Inverting(a, b, u, v, x, p)
    ensures 0 < a && 0 < b && 0 <= u < p && 0 <= v < p && (a % 2 == 1 || b % 2 == 1)
  {}

  /** The result of the inversion is the inverse exactly when the input is coprime to the modulus. */
  lemma InverseExactlyIfCoprime(u: int, x: int, p: int, g: int)
    requires p > 1 && x > 0 && IsGcd(g, x, p) && Cong(u * x, g, p)
    ensures Cong(u * x, 1, p) <==> IsGcd(1, x, p)
  {
    if IsGcd(1, x, p) {
      assert Divides(g, 1);
      var k := DividesTo(g, 1);
      if g > 1 { if k > 0 { MulLe(g, 1, k); } else { MulLe(g, k, 0); } }
    }
    if Cong(u * x, 1, p) {
      var k := CongTo(u * x, 1, p);
      var i := DividesTo(g, x);
      var j := DividesTo(g, p);
      assert 1 == g * (u * i - j * k) by {
        MulAssoc(u, g, i); MulAssoc(g, u, i); MulAssoc(g, j, k);
        MulDistrib(g, u * i, j * k);
      }
      var e := u * i - j * k;
      if g > 1 { if e > 0 { MulLe(g, 1, e); } else { MulLe(g, e, 0); } }
    }
  }
}
