/** The Montgomery ladder of the source: 256 steps, with a swap before and after each. */
module X25519Ladder {
  import opened Arith
  import opened TwosComplement
  import opened Rfc7748
  import opened X25519Field
  import opened X25519Reduce
  import opened X25519Monty

  /** The state after n steps from bit top - 1 down, swapped back after each step. */
  function PlainLadder(k: int, u: int, top: nat, n: nat): Points
    requires n <= top
  {
    if n == 0 then
      Points(1, 0, u, 1)
    else
      var bit := Bit(k, top - n);
      Swapped(bit, Step(u, Swapped(bit, PlainLadder(k, u, top, n - 1))))
  }

  // ---------------------------------------------------------------- conditional swap

  /** One limb of each array exchanged under the mask `-iswap`. */
  method SwapLimb(a: Limb, b: Limb, iswap: Limb) returns (a': Limb, b': Limb)
    requires (iswap == 0 || iswap == 1) && -0x7fff_ffff < a < 0x7fff_ffff && -0x7fff_ffff < b < 0x7fff_ffff
    ensures a' == (if iswap == 1 then b else a) && b' == (if iswap == 1 then a else b)
  {
    hide Bits, And, Xor, Signed;
    var swap: S32 := -iswap;
    var x := And(Bits(swap, 32), Xor(Bits(Narrow(a), 32), Bits(Narrow(b), 32)));
    XorSwap(a, b, swap);
    a', b' := Value32(Xor(Bits(Narrow(a), 32), x)), Value32(Xor(Bits(Narrow(b), 32), x));
  }

  method SwapConditional(a: array<Limb>, b: array<Limb>, iswap: Limb)
    requires a != b && (iswap == 0 || iswap == 1) && a.Length >= 10 && b.Length >= 10
    requires Bounded(a[..], 10, 0x7fff_ffff) && Bounded(b[..], 10, 0x7fff_ffff)
    modifies a, b
    ensures a[..10] == old(if iswap == 1 then b[..10] else a[..10])
    ensures b[..10] == old(if iswap == 1 then a[..10] else b[..10])
  {
    ghost var s, t := a[..10], b[..10];
    var i := 0;
    while i < 10
      invariant 0 <= i <= 10
      invariant forall k :: 0 <= k < i ==>
                  a[k] == (if iswap == 1 then t else s)[k] && b[k] == (if iswap == 1 then s else t)[k]
      invariant forall k :: i <= k < 10 ==> a[k] == s[k] && b[k] == t[k]
    {
      assert s[i] == old(a[..])[i] && t[i] == old(b[..])[i];
      var x, y := SwapLimb(a[i], b[i], iswap);
      a[i] := x;
      b[i] := y;
      i := i + 1;
    }
    assert a[..10] == if iswap == 1 then t else s;
    assert b[..10] == if iswap == 1 then s else t;
  }

  // ---------------------------------------------------------------- bits of the scalar

  lemma {:induction false} ByteBit(b: seq<Byte>, m: nat, t: nat)
    requires m < |b| && t < 8
    ensures Bit(LittleEndian(b), 8 * m + t) <==> (b[m] / Two(t)) % 2 == 1
    decreases m
  {
    var lo, rest := b[0] as int, LittleEndian(b[1..]);
    if m == 0 {
      LowByteBit(lo, rest, t);
    } else {
      ByteBit(b[1..], m - 1, t);
      TwoAdd(8, 8 * (m - 1) + t);
      assert Two(8) == 256;
      DropByte(lo, rest, Two(8 * (m - 1) + t));
      assert 8 * m + t == 8 + (8 * (m - 1) + t);
    }
  }

  lemma LowByteBit(lo: int, rest: int, t: nat)
    requires 0 <= lo < 256 && t < 8
    ensures ((lo + 256 * rest) / Two(t)) % 2 == (lo / Two(t)) % 2
  {
    hide Two;
    TwoAdd(t, 7 - t);
    TwoSeven();
    LowPart(lo, rest, Two(t), Two(7 - t));
  }

  lemma TwoSeven()
    ensures Two(7) == 128
  {}

  lemma LowPart(lo: int, rest: int, m: int, h: int)
    requires m > 0 && m * h == 128
    ensures ((lo + 256 * rest) / m) % 2 == (lo / m) % 2
  {
    var q, r := lo / m, lo % m;
    assert lo == m * q + r;
    var k := h * rest;
    assert 256 * rest == m * (2 * k) by {
      MulAssoc(m, h, rest);
      MulAssoc(2, m, k); MulAssoc(m, 2, k);
    }
    MulDistrib(m, q, 2 * k);
    DivModUnique(lo + 256 * rest, m, q + 2 * k, r);
  }

  lemma DropByte(lo: int, rest: int, m: int)
    requires 0 <= lo < 256 && m > 0
    ensures (lo + 256 * rest) / (256 * m) == rest / m
  {
    var q, r := rest / m, rest % m;
    assert rest == m * q + r;
    assert 256 * (m * q) == (256 * m) * q;
    DivModUnique(lo + 256 * rest, 256 * m, q, lo + 256 * r);
  }

  /** A byte after j left shifts. */
  function Shifted(b: Byte, j: nat): Byte {
    (b * Two(j)) % 256
  }

  lemma NotShifted(b: Byte)
    ensures Shifted(b, 0) == b
  {}

  /** The byte after j left shifts has bit 7 - j of the original at the top. */
  lemma ShiftedByte(b: Byte, c: Byte, j: nat)
    requires j < 8 && c == Shifted(b, j)
    ensures c / 128 == (b / Two(7 - j)) % 2 && (c * 2) % 256 == Shifted(b, j + 1)
  {
    hide Two;
    var m, x: int := Two(j), b * Two(j);
    assert c == x % 256;
    TwoAdd(j, 7 - j);
    TwoSeven();
    TwoNext(j);
    TopPart(b, m, Two(7 - j));
    assert b * Two(j + 1) == 2 * x by { MulAssoc(b, 2, m); MulAssoc(2, b, m); }
    DoubleMod(x);
  }

  lemma DoubleMod(x: int)
    ensures (2 * (x % 256)) % 256 == (2 * x) % 256
  {}

  lemma TopPart(b: int, m: int, h: int)
    requires m > 0 && h > 0 && m * h == 128
    ensures ((b * m) % 256) / 128 == (b / h) % 2
  {
    var q, r := b / h, b % h;
    assert b == h * q + r;
    var hi, lo := q / 2, q % 2;
    var t := m * r;
    assert b * m == 128 * q + t by { MulDistrib(m, h * q, r); MulAssoc(m, h, q); }
    MulLe(m, 0, r); MulLt(m, r, h);
    DivModUnique(b * m, 256, hi, 128 * lo + t);
  }

  // ---------------------------------------------------------------- the whole ladder

  lemma {:induction false} SumZeros(s: seq<int>, n: nat)
    requires n <= |s| && forall i :: 0 <= i < n ==> s[i] == 0
    ensures Sum(s, n) == 0
  {
    if n > 0 { SumZeros(s, n - 1); }
  }

  lemma SumSmall(s: seq<int>)
    requires |s| >= 10 && 0 <= s[0] <= 1 && forall i :: 1 <= i < 10 ==> s[i] == 0
    ensures Sum(s, 10) == s[0] && Is(s, s[0]) && Bounded(s, 10, TWO26)
  {
    var t := s[0 := 0];
    SumZeros(t, 10);
    SumUpdate(t, 10, 0, s[0]);
    assert t[0 := t[0] + s[0]] == s;
  }

  /** Swapping the arrays swaps the points they stand for. */
  lemma HoldsSame(x2: seq<int>, z2: seq<int>, x3: seq<int>, z3: seq<int>, y2: seq<int>, w2: seq<int>, y3: seq<int>,
                  w3: seq<int>, s: Points)
    requires Holds(x2, z2, x3, z3, s)
    requires |y2| >= 10 && |w2| >= 10 && |y3| >= 10 && |w3| >= 10
    requires x2[..10] == y2[..10] && z2[..10] == w2[..10] && x3[..10] == y3[..10] && z3[..10] == w3[..10]
    ensures Holds(y2, w2, y3, w3, s)
  {
    hide Sum, Cong;
    SumSame(x2, y2, 10); SumSame(z2, w2, 10); SumSame(x3, y3, 10); SumSame(z3, w3, 10);
    BoundedSame(x2, y2); BoundedSame(z2, w2); BoundedSame(x3, y3); BoundedSame(z3, w3);
  }

  lemma BoundedSame(s: seq<int>, t: seq<int>)
    requires Bounded(s, 10, TWO26) && |t| >= 10 && s[..10] == t[..10]
    ensures Bounded(t, 10, TWO26)
  {
    forall i | 0 <= i < 10 ensures -TWO26 < t[i] < TWO26 { assert s[..10][i] == t[..10][i]; }
  }

  lemma SwapBound(s: seq<int>)
    requires Bounded(s, 10, TWO26)
    ensures Bounded(s, 10, 0x7fff_ffff)
  {}

  /** Both coordinates of the two points exchanged if `bit` is 1. */
  method SwapPoints(x2: array<Limb>, z2: array<Limb>, x3: array<Limb>, z3: array<Limb>, bit: Limb, ghost s: Points)
    requires x2.Length == z2.Length == x3.Length == z3.Length == 19
    requires x2 != z2 && x3 != z3 && {x2, z2} !! {x3, z3} && (bit == 0 || bit == 1)
    requires Holds(x2[..], z2[..], x3[..], z3[..], s)
    modifies x2, z2, x3, z3
    ensures Holds(x2[..], z2[..], x3[..], z3[..], Swapped(bit == 1, s))
  {
    hide Sum, Cong, Bounded, Is;
    ghost var a, b, c, d := x2[..], z2[..], x3[..], z3[..];
    assert Bounded(a, 10, TWO26) && Bounded(b, 10, TWO26) && Bounded(c, 10, TWO26) && Bounded(d, 10, TWO26);
    SwapBound(a); SwapBound(b); SwapBound(c); SwapBound(d);
    SwapConditional(x2, x3, bit);
    SwapConditional(z2, z3, bit);
    hide Holds;
    assert x2[..][..10] == x2[..10] && z2[..][..10] == z2[..10] && x3[..][..10] == x3[..10] && z3[..][..10] == z3[..10];
    assert a[..10] == old(x2[..10]) && b[..10] == old(z2[..10]) && c[..10] == old(x3[..10]) && d[..10] == old(z3[..10]);
    if bit == 1 {
      HoldsSwap(a, b, c, d, s);
      HoldsSame(c, d, a, b, x2[..], z2[..], x3[..], z3[..], Swapped(true, s));
    } else {
      HoldsSame(a, b, c, d, x2[..], z2[..], x3[..], z3[..], s);
    }
  }

  lemma HoldsSwap(a: seq<int>, b: seq<int>, c: seq<int>, d: seq<int>, s: Points)
    requires Holds(a, b, c, d, s)
    ensures Holds(c, d, a, b, Swapped(true, s))
  {}

  /** The eight work arrays are all different and none is q. */
  ghost predicate Apart(x: array<Limb>, z: array<Limb>, px: array<Limb>, pz: array<Limb>,
                        x': array<Limb>, z': array<Limb>, px': array<Limb>, pz': array<Limb>, q: array<Limb>, work: set<array<Limb>>) {
    && {x, z, px, pz, x', z', px', pz'} <= work && q !in work
    && x.Length == z.Length == px.Length == pz.Length == 19 && x'.Length == z'.Length == px'.Length == pz'.Length == 19
    && x != z && px != pz && {x, z} !! {px, pz}
    && x' != z' && px' != pz' && {x', z'} !! {px', pz'}
    && {x, z, px, pz} !! {x', z', px', pz'}
  }

  lemma ApartSized(x: array<Limb>, z: array<Limb>, px: array<Limb>, pz: array<Limb>,
                  x': array<Limb>, z': array<Limb>, px': array<Limb>, pz': array<Limb>, q: array<Limb>, work: set<array<Limb>>)
    requires Apart(x, z, px, pz, x', z', px', pz', q, work)
    ensures x.Length == z.Length == 19 && {x, z, px, pz, x', z', px', pz'} <= work && q !in work
  {}

  lemma ApartSwap(x: array<Limb>, z: array<Limb>, px: array<Limb>, pz: array<Limb>,
                  x': array<Limb>, z': array<Limb>, px': array<Limb>, pz': array<Limb>, q: array<Limb>, work: set<array<Limb>>)
    requires Apart(x, z, px, pz, x', z', px', pz', q, work)
    ensures Apart(x', z', px', pz', x, z, px, pz, q, work)
  {}

  /** One bit of the scalar: swap, step, swap. */
  method LadderBit(x: array<Limb>, z: array<Limb>, px: array<Limb>, pz: array<Limb>,
                   x': array<Limb>, z': array<Limb>, px': array<Limb>, pz': array<Limb>, q: array<Limb>, bit: Limb,
                   ghost u: int, ghost s: Points, ghost work: set<array<Limb>>)
    requires Apart(x, z, px, pz, x', z', px', pz', q, work) && (bit == 0 || bit == 1)
    requires Holds(x[..], z[..], px[..], pz[..], s) && Is(q[..], u) && Bounded(q[..], 10, TWO26)
    modifies work
    ensures Holds(x'[..], z'[..], px'[..], pz'[..], Swapped(bit == 1, Step(u, Swapped(bit == 1, s))))
  {
    hide Sum, Cong, Bounded, Is, Holds, Step, Swapped;
    SwapPoints(x, z, px, pz, bit, s);
    Fmonty(x', z', px', pz', x, z, px, pz, q, u, Swapped(bit == 1, s));
    SwapPoints(x', z', px', pz', bit, Step(u, Swapped(bit == 1, s)));
  }

  method Unit(value: Limb) returns (a: array<Limb>)
    requires 0 <= value <= 1
    ensures fresh(a) && a.Length == 19 && Is(a[..], value) && Bounded(a[..], 10, TWO26)
  {
    a := new Limb[19](i => if i == 0 then value else 0);
    SumSmall(a[..]);
  }

  /** The eight bits of byte 31 - i, from the top; the new point and the old one trade places
      after every bit. */
  method LadderByte(x: array<Limb>, z: array<Limb>, px: array<Limb>, pz: array<Limb>,
                    x2: array<Limb>, z2: array<Limb>, px2: array<Limb>, pz2: array<Limb>,
                    q: array<Limb>, n: array<Byte>, i: nat, ghost u: int, ghost work: set<array<Limb>>)
    returns (nqx: array<Limb>, nqz: array<Limb>, nqpqx: array<Limb>, nqpqz: array<Limb>,
             nqx2: array<Limb>, nqz2: array<Limb>, nqpqx2: array<Limb>, nqpqz2: array<Limb>)
    requires n.Length == 32 && i < 32 && Is(q[..], u) && Bounded(q[..], 10, TWO26)
    requires Apart(x, z, px, pz, x2, z2, px2, pz2, q, work)
    requires Holds(x[..], z[..], px[..], pz[..], PlainLadder(LittleEndian(n[..]), u, 256, 8 * i))
    modifies work
    ensures Apart(nqx, nqz, nqpqx, nqpqz, nqx2, nqz2, nqpqx2, nqpqz2, q, work)
    ensures Holds(nqx[..], nqz[..], nqpqx[..], nqpqz[..], PlainLadder(LittleEndian(n[..]), u, 256, 8 * (i + 1)))
  {
    hide *;
    ghost var k := LittleEndian(n[..]);
    nqx, nqz, nqpqx, nqpqz := x, z, px, pz;
    nqx2, nqz2, nqpqx2, nqpqz2 := x2, z2, px2, pz2;
    ApartSized(x, z, px, pz, x2, z2, px2, pz2, q, work);
    var byte: Byte := n[31 - i];
    NotShifted(byte);
    var j := 0;
    while j < 8
      invariant 0 <= j <= 8 && byte == Shifted(n[31 - i], j)
      invariant Apart(nqx, nqz, nqpqx, nqpqz, nqx2, nqz2, nqpqx2, nqpqz2, q, work)
      invariant Holds(nqx[..], nqz[..], nqpqx[..], nqpqz[..], PlainLadder(k, u, 256, 8 * i + j))
    {
      var bit: Limb := byte / 128;
      NextBit(n[..], u, i, j, byte);
      LadderBit(nqx, nqz, nqpqx, nqpqz, nqx2, nqz2, nqpqx2, nqpqz2, q, bit, u, PlainLadder(k, u, 256, 8 * i + j), work);
      ApartSwap(nqx, nqz, nqpqx, nqpqz, nqx2, nqz2, nqpqx2, nqpqz2, q, work);
      nqx, nqx2 := nqx2, nqx;
      nqz, nqz2 := nqz2, nqz;
      nqpqx, nqpqx2 := nqpqx2, nqpqx;
      nqpqz, nqpqz2 := nqpqz2, nqpqz;
      byte := (byte * 2) % 256;
      j := j + 1;
    }
  }

  /** The eight work arrays, with the points at infinity and (q : 1) in the first four. */
  method WorkArrays(q: array<Limb>, ghost u: int)
    returns (nqx: array<Limb>, nqz: array<Limb>, nqpqx: array<Limb>, nqpqz: array<Limb>,
             nqx2: array<Limb>, nqz2: array<Limb>, nqpqx2: array<Limb>, nqpqz2: array<Limb>, ghost work: set<array<Limb>>)
    requires Is(q[..], u) && Bounded(q[..], 10, TWO26)
    ensures fresh(work) && Apart(nqx, nqz, nqpqx, nqpqz, nqx2, nqz2, nqpqx2, nqpqz2, q, work)
    ensures forall k :: Holds(nqx[..], nqz[..], nqpqx[..], nqpqz[..], PlainLadder(k, u, 256, 0))
  {
    hide Sum, Cong, Bounded, Is, Holds, PlainLadder;
    Sized(q[..], TWO26);
    nqpqx := Unit(0);
    nqpqz := Unit(1);
    nqx := Unit(1);
    nqz := Unit(0);
    nqpqx2 := Unit(0);
    nqpqz2 := Unit(1);
    nqx2 := Unit(0);
    nqz2 := Unit(1);
    Copy10(nqpqx, q);
    work := {nqx, nqz, nqpqx, nqpqz, nqx2, nqz2, nqpqx2, nqpqz2};
    LadderStart(u, nqx[..], nqz[..], nqpqx[..], nqpqz[..], q[..]);
  }

  method Cmult(resultx: array<Limb>, resultz: array<Limb>, n: array<Byte>, q: array<Limb>, ghost u: int)
    requires n.Length == 32 && Is(q[..], u) && Bounded(q[..], 10, TWO26)
    requires resultx.Length >= 10 && resultz.Length >= 10 && resultx != resultz
    modifies resultx, resultz
    ensures var s := PlainLadder(LittleEndian(n[..]), u, 256, 256); Is(resultx[..], s.x2) && Is(resultz[..], s.z2)
    ensures Bounded(resultx[..], 10, TWO26) && Bounded(resultz[..], 10, TWO26)
  {
    hide *;
    ghost var k := LittleEndian(n[..]);
    var nqx, nqz, nqpqx, nqpqz, nqx2, nqz2, nqpqx2, nqpqz2, work := WorkArrays(q, u);
    ApartSized(nqx, nqz, nqpqx, nqpqz, nqx2, nqz2, nqpqx2, nqpqz2, q, work);
    var i := 0;
    while i < 32
      modifies work
      invariant 0 <= i <= 32 && q[..] == old(q[..])
      invariant Apart(nqx, nqz, nqpqx, nqpqz, nqx2, nqz2, nqpqx2, nqpqz2, q, work)
      invariant Holds(nqx[..], nqz[..], nqpqx[..], nqpqz[..], PlainLadder(k, u, 256, 8 * i))
    {
      nqx, nqz, nqpqx, nqpqz, nqx2, nqz2, nqpqx2, nqpqz2 :=
        LadderByte(nqx, nqz, nqpqx, nqpqz, nqx2, nqz2, nqpqx2, nqpqz2, q, n, i, u, work);
      i := i + 1;
    }
    ApartSized(nqx, nqz, nqpqx, nqpqz, nqx2, nqz2, nqpqx2, nqpqz2, q, work);
    Copy10(resultx, nqx);
    Copy10(resultz, nqz);
    LadderEnd(nqx[..], nqz[..], nqpqx[..], nqpqz[..], resultx[..], resultz[..], PlainLadder(k, u, 256, 256));
  }

  lemma LadderStart(u: int, x2: seq<int>, z2: seq<int>, x3: seq<int>, z3: seq<int>, q: seq<int>)
    requires Is(x2, 1) && Is(z2, 0) && Is(q, u) && Is(z3, 1) && |x3| >= 10 && x3[..10] == q[..10]
    requires Bounded(x2, 10, TWO26) && Bounded(z2, 10, TWO26) && Bounded(q, 10, TWO26) && Bounded(z3, 10, TWO26)
    ensures forall k :: Holds(x2, z2, x3, z3, PlainLadder(k, u, 256, 0))
  {
    hide Sum, Cong;
    SumSame(q, x3, 10);
    BoundedSame(q, x3);
  }

  /** Bit j of byte 31 - i, counted from the top, extends the ladder by one step. */
  lemma NextBit(n: seq<Byte>, u: int, i: nat, j: nat, byte: Byte)
    requires |n| == 32 && i < 32 && j < 8 && byte == Shifted(n[31 - i], j)
    ensures byte / 128 == 0 || byte / 128 == 1
    ensures (byte * 2) % 256 == Shifted(n[31 - i], j + 1)
    ensures var k, s, bit := LittleEndian(n), PlainLadder(LittleEndian(n), u, 256, 8 * i + j), byte / 128 == 1;
            PlainLadder(k, u, 256, 8 * i + j + 1) == Swapped(bit, Step(u, Swapped(bit, s)))
  {
    hide Two, Step, LittleEndian, Bit;
    ShiftedByte(n[31 - i], byte, j);
    ByteBit(n, 31 - i, 7 - j);
    assert 256 - (8 * i + j + 1) == 8 * (31 - i) + (7 - j);
  }

  lemma LadderEnd(x2: seq<int>, z2: seq<int>, x3: seq<int>, z3: seq<int>, rx: seq<int>, rz: seq<int>, s: Points)
    requires Holds(x2, z2, x3, z3, s) && |rx| >= 10 && |rz| >= 10 && rx[..10] == x2[..10] && rz[..10] == z2[..10]
    ensures Is(rx, s.x2) && Is(rz, s.z2) && Bounded(rx, 10, TWO26) && Bounded(rz, 10, TWO26)
  {
    hide Sum, Cong;
    SumSame(x2, rx, 10); SumSame(z2, rz, 10);
    BoundedSame(x2, rx); BoundedSame(z2, rz);
  }
}
