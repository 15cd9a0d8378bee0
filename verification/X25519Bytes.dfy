/** Little-endian byte strings and limbs: `fexpand` and `fcontract`. */
module X25519Bytes {
  import opened Arith
  import opened TwosComplement
  import opened Rfc7748
  import opened X25519Field
  import opened X25519Reduce

  // ---------------------------------------------------------------- byte strings

  lemma {:induction false} BytesConcat(a: seq<int>, b: seq<int>)
    ensures LittleEndian(a + b) == LittleEndian(a) + Two(8 * |a|) * LittleEndian(b)
    decreases |a|
  {
    if a == [] {
      assert a + b == b;
    } else {
      assert (a + b)[1..] == a[1..] + b;
      BytesConcat(a[1..], b);
      TwoByte(|a| - 1);
      var x, v, w := LittleEndian(a[1..]), Two(8 * (|a| - 1)) as int, LittleEndian(b);
      MulDistrib(256, x, v * w);
      MulAssoc(256, v, w);
    }
  }

  lemma TwoByte(n: nat)
    ensures Two(8 * (n + 1)) == 256 * Two(8 * n) && 8 * (n + 1) == 8 + 8 * n
  {
    assert Two(8) == 256;
    hide Two;
    TwoAdd(8, 8 * n);
  }

  lemma {:induction false} BytesBound(b: seq<Byte>)
    ensures 0 <= LittleEndian(b) < Two(8 * |b|)
    decreases |b|
  {
    if b != [] {
      BytesBound(b[1..]);
      TwoByte(|b| - 1);
    }
  }

  /** A byte string is determined by its length and its value. */
  lemma {:induction false} BytesInjective(a: seq<Byte>, b: seq<Byte>)
    requires |a| == |b| && LittleEndian(a) == LittleEndian(b)
    ensures a == b
    decreases |a|
  {
    if a != [] {
      BytesInjective(a[1..], b[1..]);
      assert a == [a[0]] + a[1..] && b == [b[0]] + b[1..];
    }
  }

  // ---------------------------------------------------------------- positions

  /** The first byte and the shift within it at which limb i starts. */
  function Start(i: nat): nat
    requires i < 10
  {
    [0, 3, 6, 9, 12, 16, 19, 22, 25, 28][i]
  }

  function Shift(i: nat): nat
    requires i < 10
  {
    [0, 2, 3, 5, 6, 0, 1, 3, 4, 6][i]
  }

  /** The number of bits of limb i. */
  function Width(i: nat): nat {
    if i % 2 == 0 then 26 else 25
  }

  lemma RadixTwo(i: nat)
    ensures Radix(i) == Two(Width(i))
  {
    Two26();
  }

  /** The position of limb i in bits. */
  function Position(i: nat): nat {
    if i == 0 then 0 else Position(i - 1) + Width(i - 1)
  }

  lemma {:induction false} WeightTwo(i: nat)
    ensures Weight(i) == Two(Position(i))
  {
    if i > 0 {
      WeightTwo(i - 1);
      RadixTwo(i - 1);
      TwoAdd(Width(i - 1), Position(i - 1));
    }
  }

  lemma Positions(i: nat)
    requires i < 10
    ensures Position(i) == 8 * Start(i) + Shift(i)
    ensures Shift(i) + Width(i) <= 32 && Start(i) + 4 <= 32 && Shift(i) < 8
    ensures i < 9 ==>
              Start(i + 1) == Start(i) + 4 || (Start(i + 1) == Start(i) + 3 && Shift(i) + Width(i) == 24 + Shift(i + 1))
  {
    assert Position(5) == 128;
  }

  // ---------------------------------------------------------------- fexpand

  /** Four bytes as a number. */
  function Word4(b: seq<Byte>, start: nat): int
    requires start + 4 <= |b|
  {
    b[start] as int + 256 * b[start + 1] as int + 0x1_0000 * b[start + 2] as int + 0x100_0000 * b[start + 3] as int
  }

  /** Four bytes from the middle of a number. */
  lemma Word4Is(b: seq<Byte>, start: nat)
    requires start + 4 <= |b|
    ensures Word4(b, start) == (LittleEndian(b) / Two(8 * start)) % 0x1_0000_0000
  {
    hide Two, LittleEndian;
    var lo, mid, hi := b[..start], b[start..start + 4], b[start + 4..];
    assert b == lo + (mid + hi);
    BytesConcat(lo, mid + hi);
    BytesConcat(mid, hi);
    BytesBound(lo);
    Four(mid);
    Two32();
    var m, w, h := Two(8 * start) as int, LittleEndian(mid), LittleEndian(hi);
    DivModUnique(LittleEndian(b), m, w + 0x1_0000_0000 * h, LittleEndian(lo));
    DivModUnique(w + 0x1_0000_0000 * h, 0x1_0000_0000, h, w);
  }

  lemma Four(b: seq<Byte>)
    requires |b| == 4
    ensures LittleEndian(b) == Word4(b, 0) && 0 <= Word4(b, 0) < 0x1_0000_0000
  {
    assert b[1..] == [b[1], b[2], b[3]] && b[1..][1..] == [b[2], b[3]] && b[1..][1..][1..] == [b[3]];
    assert LittleEndian([b[3]]) == b[3];
    assert LittleEndian([b[2], b[3]]) == b[2] as int + 256 * b[3] as int;
  }

  /** A field of a window of a number is a field of the number. */
  lemma WindowField(x: int, a: int, r: int, c: int)
    requires a > 0 && r > 0 && c > 0
    ensures a * (r * c) > 0 && ((x % (a * (r * c))) / a) % r == (x / a) % r
  {
    MulLt(r, 0, c);
    ModThenDiv(x, a, r * c);
    ModThenMod(x / a, r, c);
  }

  lemma ModThenDiv(x: int, a: int, b: int)
    requires a > 0 && b > 0
    ensures a * b > 0 && (x % (a * b)) / a == (x / a) % b
  {
    MulLt(a, 0, b);
    var q, y := x / a, x % a;
    assert x == a * q + y;
    var q1, z := q / b, q % b;
    assert q == b * q1 + z;
    assert x == (a * b) * q1 + (a * z + y) by {
      MulDistrib(a, b * q1, z);
      MulAssoc(a, b, q1);
    }
    assert 0 <= a * z + y < a * b by { MulLe(a, 0, z); MulLt(a, z, b); }
    DivModUnique(x, a * b, q1, a * z + y);
    DivModUnique(a * z + y, a, z, y);
  }

  lemma ModThenMod(q: int, r: int, c: int)
    requires r > 0 && c > 0
    ensures r * c > 0 && (q % (r * c)) % r == q % r
  {
    MulLt(r, 0, c);
    var q1, z := q / (r * c), q % (r * c);
    assert q == (r * c) * q1 + z;
    var q2, w := z / r, z % r;
    assert z == r * q2 + w;
    assert q == r * (c * q1 + q2) + w by {
      MulAssoc(r, c, q1);
      MulDistrib(r, c * q1, q2);
    }
    DivModUnique(q, r, c * q1 + q2, w);
  }

  /** One limb of fexpand: 25 or 26 bits of four bytes. */
  function Piece(b: seq<Byte>, i: nat): (r: Limb)
    requires |b| == 32 && i < 10
    ensures 0 <= r < Radix(i)
  {
    Positions(i);
    (Word4(b, Start(i)) / Two(Shift(i))) % Radix(i)
  }

  lemma PieceIs(b: seq<Byte>, i: nat)
    requires |b| == 32 && i < 10
    ensures Weight(i) > 0 && Piece(b, i) == (LittleEndian(b) / Weight(i)) % Radix(i)
  {
    hide Two, Radix, Weight, LittleEndian;
    var n, s, d := LittleEndian(b), Start(i), Shift(i);
    Positions(i);
    WeightTwo(i); RadixTwo(i);
    Word4Is(b, s);
    Two32();
    var rest := 32 - d - Width(i);
    TwoAdd(Width(i), rest);
    TwoAdd(d, Width(i) + rest);
    WindowField(n / Two(8 * s), Two(d), Radix(i), Two(rest));
    DivDiv(n, Two(8 * s), Two(d));
    TwoAdd(8 * s, d);
  }

  lemma WeightNext(i: nat)
    ensures Weight(0) == 1 && Weight(i + 1) == Radix(i) * Weight(i)
  {}

  /** The mixed-radix digits of a number add up to its remainder. */
  lemma {:induction false} DigitsSum(x: int, s: seq<int>, n: nat)
    requires n <= |s| && forall i :: 0 <= i < n ==> Weight(i) > 0 && s[i] == (x / Weight(i)) % Radix(i)
    ensures Weight(n) > 0 && Sum(s, n) == x % Weight(n)
  {
    hide Weight, Sum, Radix;
    SumNext(s, 0);
    WeightNext(0);
    if n > 0 {
      DigitsSum(x, s, n - 1);
      SumNext(s, n - 1);
      WeightNext(n - 1);
      assert Radix(n - 1) > 0 by { RadixTwo(n - 1); }
      DigitStep(x, Weight(n - 1), Radix(n - 1));
    }
  }

  lemma DigitStep(x: int, w: int, r: int)
    requires w > 0 && r > 0
    ensures r * w > 0 && x % (r * w) == x % w + w * ((x / w) % r)
  {
    var q, y := x / w, x % w;
    var q1, z := q / r, q % r;
    assert x == w * q + y && q == r * q1 + z;
    MulLt(w, 0, r);
    assert x == (r * w) * q1 + (w * z + y) by { MulDistrib(w, r * q1, z); MulAssoc(w, r, q1); }
    assert 0 <= w * z + y < r * w by { MulLe(w, 0, z); MulLt(w, z, r); }
    DivModUnique(x, r * w, q1, w * z + y);
  }

  method Fexpand(output: array<Limb>, input: array<Byte>)
    requires output.Length == 10 && input.Length == 32
    modifies output
    ensures Sum(output[..], 10) == LittleEndian(input[..]) % TWO255
    ensures Bounded(output[..], 10, TWO26) && forall i :: 0 <= i < 10 ==> 0 <= output[i] < Radix(i)
  {
    hide Sum, Piece, LittleEndian, Weight;
    var b := input[..];
    output[0] := Piece(b, 0);
    output[1] := Piece(b, 1);
    output[2] := Piece(b, 2);
    output[3] := Piece(b, 3);
    output[4] := Piece(b, 4);
    output[5] := Piece(b, 5);
    output[6] := Piece(b, 6);
    output[7] := Piece(b, 7);
    output[8] := Piece(b, 8);
    output[9] := Piece(b, 9);
    ghost var s := output[..];
    forall i | 0 <= i < 10 ensures Weight(i) > 0 && s[i] == (LittleEndian(b) / Weight(i)) % Radix(i) && 0 <= s[i] < Radix(i) {
      assert s[i] == Piece(b, i);
      PieceIs(b, i);
    }
    DigitsSum(LittleEndian(b), s, 10);
    Weights();
  }
}
