/** What the scalar, the coordinate and the ladder of RFC 7748 mean, apart from how they are
    computed. */
module X25519Scalar {
  import opened Arith
  import opened TwosComplement
  import opened Rfc7748
  import opened X25519Bytes
  import opened X25519Ladder

  // ---------------------------------------------------------------- the scalar

  /** Every bit of the scalar: bit 254 is set, bits 3 to 253 are those given, the others are
      clear. */
  lemma ClampBits(k: seq<Byte>, t: nat)
    requires |k| == 32 && t < 256
    ensures Bit(DecodeScalar(k), t) <==> t == 254 || (3 <= t < 254 && Bit(LittleEndian(k), t))
  {
    BitIn(k, t / 8, t % 8);
  }

  lemma BitIn(k: seq<Byte>, i: nat, j: nat)
    requires |k| == 32 && i < 32 && j < 8
    ensures Bit(DecodeScalar(k), 8 * i + j)
            <==> if i == 31 then j == 6 || (j < 6 && Bit(LittleEndian(k), 8 * i + j))
                 else (i > 0 || j >= 3) && Bit(LittleEndian(k), 8 * i + j)
  {
    hide LittleEndian, Bit, Two, Clamp;
    var e := Clamp(k);
    ClampAt(k, i);
    ByteBit(e, i, j);
    ByteBit(k, i, j);
    if i == 0 { FirstByte(k[0], j); }
    if i == 31 { LastByte(k[31], j); }
  }

  lemma ClampAt(k: seq<Byte>, i: nat)
    requires |k| == 32 && i < 32
    ensures |Clamp(k)| == 32
    ensures Clamp(k)[i] == if i == 0 then k[0] - k[0] % 8 else if i == 31 then k[31] % 64 + 64 else k[i]
  {}

  lemma Twos()
    ensures Two(0) == 1 && Two(1) == 2 && Two(2) == 4 && Two(3) == 8
    ensures Two(4) == 16 && Two(5) == 32 && Two(6) == 64 && Two(7) == 128
  {
    TwoNext(0); TwoNext(1); TwoNext(2); TwoNext(3); TwoNext(4); TwoNext(5); TwoNext(6);
  }

  lemma FirstByte(b: Byte, j: nat)
    requires j < 8
    ensures ((b - b % 8) / Two(j)) % 2 == if j < 3 then 0 else (b / Two(j)) % 2
  {
    Twos();
    hide Two;
    var q := b / 8;
    assert b - b % 8 == 8 * q;
    if j < 3 {
      TwoParts(j, 3);
      EvenPart(q, Two(j), Two(3 - j));
    } else {
      TwoParts(3, j);
      DivDiv(b, 8, Two(j - 3));
      DivDiv(8 * q, 8, Two(j - 3));
    }
  }

  lemma TwoParts(i: nat, j: nat)
    requires i <= j
    ensures Two(j) == Two(i) * Two(j - i) && Two(i) > 0 && (i < j ==> Two(j - i) % 2 == 0)
  {
    TwoAdd(i, j - i);
    if i < j { TwoNext(j - i - 1); }
  }

  lemma EvenPart(q: int, m: int, h: int)
    requires m > 0 && m * h == 8 && h % 2 == 0
    ensures ((8 * q) / m) % 2 == 0
  {
    MulAssoc(m, h, q);
    DivModUnique(8 * q, m, h * q, 0);
    var g := h / 2;
    assert h * q == 2 * (g * q) by { MulAssoc(2, g, q); }
  }

  lemma LastByte(b: Byte, j: nat)
    requires j < 8
    ensures ((b % 64 + 64) / Two(j)) % 2 == if j == 7 then 0 else if j == 6 then 1 else (b / Two(j)) % 2
  {
    Twos();
    hide Two;
    if j < 6 {
      TwoParts(j, 6);
      MiddlePart(b, Two(j), Two(6 - j));
    }
  }

  lemma MiddlePart(b: int, m: int, h: int)
    requires m > 0 && m * h == 64 && h % 2 == 0
    ensures ((b % 64 + 64) / m) % 2 == (b / m) % 2
  {
    var q, r := b / 64, b % 64;
    var x := r / m;
    MiddleQuotient(b, m, h, q, r);
    MiddleQuotient(r + 64, m, h, 1, r);
    var g := h / 2;
    assert h * q == 2 * (g * q) by { MulAssoc(2, g, q); }
    SameParity(h * q + x, x, g * q);
    SameParity(h * 1 + x, x, g);
  }

  lemma MiddleQuotient(b: int, m: int, h: int, q: int, r: int)
    requires m > 0 && m * h == 64 && b == 64 * q + r
    ensures b / m == h * q + r / m
  {
    var x, y := r / m, r % m;
    assert r == m * x + y;
    MulAssoc(m, h, q);
    MulDistrib(m, h * q, x);
    DivModUnique(b, m, h * q + x, y);
  }

  lemma SameParity(a: int, b: int, k: int)
    requires a == b + 2 * k
    ensures a % 2 == b % 2
  {}

  /** The scalar is a multiple of eight between 2^254 and 2^255. */
  lemma ScalarRange(k: seq<Byte>)
    requires |k| == 32
    ensures DecodeScalar(k) % 8 == 0 && Two(254) <= DecodeScalar(k) < Two(255)
  {
    hide LittleEndian, Two, Clamp;
    var e := Clamp(k);
    ClampAt(k, 31);
    var low, high := LittleEndian(e[..31]), e[31] as int;
    assert e == e[..31] + [e[31]];
    BytesConcat(e[..31], [e[31]]);
    OneByteValue([e[31]]);
    BytesBound(e[..31]);
    Twos();
    TwoAdd(248, 6); TwoAdd(248, 7);
    HighRange(low, high, Two(248));
    EightDivides(k, e);
  }

  lemma HighRange(low: int, high: int, t: int)
    requires 0 <= low < t && 64 <= high < 128
    ensures t * 64 <= low + t * high < t * 128
  {
    MulLe(t, 64, high);
    MulLe(t, high, 127);
    MulDistrib(t, 127, 1);
  }

  lemma OneByteValue(a: seq<int>)
    requires |a| == 1
    ensures LittleEndian(a) == a[0]
  {
    assert a[1..] == [];
  }

  lemma EightDivides(k: seq<Byte>, e: seq<Byte>)
    requires |k| == 32 && e == Clamp(k)
    ensures LittleEndian(e) % 8 == 0
  {
    ClampAt(k, 0);
    hide Clamp;
    FirstOf(e);
    hide LittleEndian;
    var r := LittleEndian(e[1..]);
    DivModUnique(e[0] + 256 * r, 8, k[0] / 8 + 32 * r, 0);
  }

  lemma FirstOf(e: seq<int>)
    requires e != []
    ensures LittleEndian(e) == e[0] + 256 * LittleEndian(e[1..])
  {}

  // ---------------------------------------------------------------- the coordinate

  /** The top bit of the coordinate is ignored, and nothing else. */
  lemma CoordinateBits(u: seq<Byte>)
    requires |u| == 32
    ensures DecodeU(u) == LittleEndian(u[31 := u[31] % 128]) == LittleEndian(u) % Two(255)
  {
    hide LittleEndian, Two;
    var v := u[31 := u[31] % 128];
    var a, x, y := u[..31], u[31], u[31] % 128;
    assert u == a + [x] && v == a + [y];
    BytesConcat(a, [x]); BytesConcat(a, [y]);
    OneByteValue([x]); OneByteValue([y]);
    BytesBound(a);
    Twos();
    TwoAdd(248, 7);
    assert Two(255) == TWO255 by { Two255(); }
    var t, q := Two(248), x / 128;
    assert x == 128 * q + y;
    MulDistrib(t, 128 * q, y);
    MulAssoc(t, 128, q);
    MulLe(t, y, 127);
    MulLe(t, 0, y);
    MulDistrib(t, 127, 1);
    DivModUnique(LittleEndian(u), TWO255, q, LittleEndian(v));
  }

  lemma Two255()
    ensures Two(255) == TWO255
  {
    Twos();
    hide Two;
    TwoAdd(7, 8); TwoAdd(4, 4); TwoAdd(15, 15); TwoAdd(30, 30); TwoAdd(60, 60); TwoAdd(120, 120); TwoAdd(240, 15);
  }

  // ---------------------------------------------------------------- a step

  /** On the curve y^2 = x^3 + 486662 x^2 + x, a step doubles the first point: the formulas for
      x = X / Z. */
  lemma StepDoubles(u: int, s: Points)
    ensures var t := Step(u, s);
            var (x, z) := (s.x2, s.z2);
            t.x2 == Mod((x * x - z * z) * (x * x - z * z))
            && t.z2 == Mod(4 * (x * z) * (x * x + 486662 * (x * z) + z * z))
  {
    hide Mod;
    DoubleIdentities(s.x2, s.z2);
  }

  /** And it adds the two points, whose difference has the coordinate u. */
  lemma StepAdds(u: int, s: Points)
    ensures var t := Step(u, s);
            var (x, z) := (s.x2, s.z2);
            t.x3 == Mod(4 * ((x * s.x3 - z * s.z3) * (x * s.x3 - z * s.z3)))
            && t.z3 == Mod(4 * (u * ((z * s.x3 - x * s.z3) * (z * s.x3 - x * s.z3))))
  {
    hide Mod;
    AddIdentities(u, s.x2, s.z2, s.x3, s.z3);
  }

  lemma DoubleIdentities(x: int, z: int)
    ensures var AA, BB := (x + z) * (x + z), (x - z) * (x - z);
            var E := AA - BB;
            AA * BB == (x * x - z * z) * (x * x - z * z)
            && E * (AA + 121665 * E) == 4 * (x * z) * (x * x + 486662 * (x * z) + z * z)
  {
    var a, b, c := x * x, z * z, x * z;
    var AA, BB := (x + z) * (x + z), (x - z) * (x - z);
    assert AA == a + 2 * c + b && BB == a - 2 * c + b;
    var m := a - b;
    Factors(x, z);
    assert (x + z) * (x - z) == m;
    Regroup4(x + z, x - z);
    assert AA - BB == 4 * c;
    assert AA + 121665 * (AA - BB) == a + 486662 * c + b;
  }

  lemma Factors(x: int, z: int)
    ensures (x + z) * (x - z) == x * x - z * z
  {}

  lemma Regroup4(p: int, q: int)
    ensures (p * p) * (q * q) == (p * q) * (p * q)
  {
    MulAssoc(p, p, q * q); MulAssoc(p, q, q); MulAssoc(p, q, p * q);
    assert p * (q * q) == q * (p * q) by { MulAssoc(p, q, q); }
  }

  lemma AddIdentities(u: int, x: int, z: int, x': int, z': int)
    ensures var DA, CB := (x' - z') * (x + z), (x' + z') * (x - z);
            (DA + CB) * (DA + CB) == 4 * ((x * x' - z * z') * (x * x' - z * z'))
            && u * ((DA - CB) * (DA - CB)) == 4 * (u * ((z * x' - x * z') * (z * x' - x * z')))
  {
    var DA, CB := (x' - z') * (x + z), (x' + z') * (x - z);
    var p, q := x * x' - z * z', z * x' - x * z';
    CrossSums(x, z, x', z');
    assert DA + CB == 2 * p && DA - CB == 2 * q;
    assert (2 * p) * (2 * p) == 4 * (p * p) && (2 * q) * (2 * q) == 4 * (q * q);
    MulAssoc(u, 4, q * q); MulAssoc(4, u, q * q);
  }

  lemma CrossSums(x: int, z: int, x': int, z': int)
    ensures (x' - z') * (x + z) + (x' + z') * (x - z) == 2 * (x * x' - z * z')
    ensures (x' - z') * (x + z) - (x' + z') * (x - z) == 2 * (z * x' - x * z')
  {}

  // ---------------------------------------------------------------- the ladder

  /** `rep(m, x, z)` says that (x : z) stands for m times the base point. */
  type Multiple = (int, int, int) -> bool

  /** A step doubles the first of two neighbouring multiples and adds both. */
  ghost predicate Doubles(rep: Multiple, u: int, a: int, b: int, s: Points) {
    var t := Step(u, s);
    (a - b == 1 || b - a == 1) && rep(a, s.x2, s.z2) && rep(b, s.x3, s.z3) ==>
      rep(2 * a, t.x2, t.z2) && rep(a + b, t.x3, t.z3)
  }

  /** Whatever a point and its multiples are, if a step doubles and adds them then the ladder
      ends with the multiple by the scalar, and the result is its quotient. */
  lemma LadderMultiplies(rep: Multiple, scalar: seq<Byte>, base: seq<Byte>) returns (x: int, z: int)
    requires |scalar| == |base| == 32
    requires rep(0, 1, 0) && rep(1, DecodeU(base), 1)
    requires forall a, b, s :: Doubles(rep, DecodeU(base), a, b, s)
    ensures rep(DecodeScalar(scalar), x, z) && X25519(scalar, base) == Mod(x * Power(z, P - 2))
  {
    hide DecodeU, DecodeScalar, Ladder, Power, Mod;
    var k, u := DecodeScalar(scalar), DecodeU(base);
    ScalarRange(scalar);
    TwoPositive();
    Climb(rep, k, u, 255);
    assert k / Two(0) == k by { Twos(); }
    var r := Ladder(k, u, 255);
    var s := Swapped(r.swap, r.points);
    x, z := s.x2, s.z2;
  }

  lemma TwoPositive()
    ensures Two(254) > 0
  {}

  ghost predicate Respected(rep: Multiple, u: int) {
    rep(0, 1, 0) && rep(1, u, 1) && forall a, b, s :: Doubles(rep, u, a, b, s)
  }

  /** With the pending swap done, the state holds two neighbouring multiples. */
  ghost predicate Holds(rep: Multiple, m: int, r: Rung) {
    var s := Swapped(r.swap, r.points); rep(m, s.x2, s.z2) && rep(m + 1, s.x3, s.z3)
  }

  lemma {:induction false} Climb(rep: Multiple, k: int, u: int, n: nat)
    requires n <= 255 && 0 <= k < Two(255) && Respected(rep, u)
    ensures Holds(rep, k / Two(255 - n), Ladder(k, u, n))
    decreases n
  {
    hide Two, Step;
    if n == 0 {
      DivModUnique(k, Two(255), 0, k);
    } else {
      Climb(rep, k, u, n - 1);
      NextMultiple(k, 255 - n);
      hide Holds, Ladder, Respected, Bit;
      var r, bit := Ladder(k, u, n - 1), Bit(k, 255 - n);
      LadderNext(k, u, n);
      Rise(rep, u, k / Two(256 - n), r, bit);
    }
  }

  lemma LadderNext(k: int, u: int, n: nat)
    requires 0 < n <= 255
    ensures var r, bit := Ladder(k, u, n - 1), Bit(k, 255 - n);
            Ladder(k, u, n) == Rung(Step(u, Swapped(r.swap != bit, r.points)), bit)
  {
    hide Step, Bit;
  }

  lemma Rise(rep: Multiple, u: int, m: int, r: Rung, bit: bool)
    requires Respected(rep, u) && Holds(rep, m, r)
    ensures Holds(rep, 2 * m + (if bit then 1 else 0), Rung(Step(u, Swapped(r.swap != bit, r.points)), bit))
  {
    hide Step;
    var q, s := Swapped(r.swap, r.points), Swapped(r.swap != bit, r.points);
    var a, b := if bit then m + 1 else m, if bit then m else m + 1;
    assert s == Swapped(bit, q);
    assert Doubles(rep, u, a, b, s);
    Doubled(rep, u, a, b, s);
  }

  lemma Doubled(rep: Multiple, u: int, a: int, b: int, s: Points)
    requires Doubles(rep, u, a, b, s) && (a - b == 1 || b - a == 1) && rep(a, s.x2, s.z2) && rep(b, s.x3, s.z3)
    ensures var t := Step(u, s); rep(2 * a, t.x2, t.z2) && rep(a + b, t.x3, t.z3)
  {
    hide Step;
  }

  lemma NextMultiple(k: int, t: nat)
    ensures k / Two(t) == 2 * (k / Two(t + 1)) + (if Bit(k, t) then 1 else 0)
  {
    hide Two;
    TwoNext(t);
    DivDiv(k, Two(t), 2);
    assert Two(t) * 2 == Two(t + 1);
  }
}
