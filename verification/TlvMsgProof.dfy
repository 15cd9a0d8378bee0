/** Parsing a built message restores every slot that building visited, exactly when descriptors
    that share a type and an instance are filled in order. */
module TlvMsgProof {
  import opened Arith
  import opened Tlv
  import opened TlvMsg

  // ---------------------------------------------------------------- well-formed tables and messages

  /** The offset of descriptor k. */
  function Offset(ds: seq<Desc>, k: nat): nat
    requires k <= |ds|
  {
    if k == 0 then 0 else Offset(ds, k - 1) + Step(ds, k - 1)
  }

  function Extent(ds: seq<Desc>): nat {
    Offset(ds, |ds|)
  }

  /** Types are not zero, repetitions follow what they repeat and come last of their type and
      instance, and a compound has room for its children behind its presence flag. */
  ghost predicate WellFormed(ds: seq<Desc>) {
    && |ds| < MAX_CHILD_DESC
    && (forall i :: 0 <= i < |ds| ==> EntryOk(ds, i))
    && (forall i, j :: 0 <= i < j < |ds| && SameKey(ds, i, j) ==> !ds[i + 1].More?)
    && (forall i :: 0 <= i < |ds| ==> DescOk(ds[i]))
  }

  type Key = (nat, nat)

  function KeyOf(d: Desc): Key { (Typ(d), Inst(d)) }

  predicate IsKey(d: Desc, key: Key) {
    !d.More? && KeyOf(d) == key
  }

  predicate SameKey(ds: seq<Desc>, i: nat, j: nat)
    requires i < |ds| && j < |ds|
  {
    !ds[i].More? && IsKey(ds[j], KeyOf(ds[i]))
  }

  ghost predicate EntryOk(ds: seq<Desc>, i: nat)
    requires i < |ds|
  {
    if ds[i].More? then i > 0 && !ds[i - 1].More? && ds[i].length > 0 else Typ(ds[i]) > 0
  }

  ghost predicate DescOk(d: Desc) {
    match d
    case LeafDesc(_, _, _, _, vsize) => vsize > 0
    case CompoundDesc(_, _, vsize, children) => vsize >= PRESENCE + Extent(children) && WellFormed(children)
    case More(_) => true
  }

  ghost predicate FieldOk(d: Desc, f: Field)
    requires d.LeafDesc?
  {
    match d.ctype
    case Uint8 => f.Num? && f.v < 0x100
    case Uint16 => f.Num? && f.v < 0x1_0000
    case Uint24 => f.Num? && f.v < 0x100_0000
    case Uint32 => f.Num? && f.v < 0x1_0000_0000
    case FixedStr => f.Octets? && |f.bytes| == d.length
    case VarStr => f.Octets?
    case Empty => f == Mark
  }

  /** Every visited slot holds a value of its descriptor's type and size. */
  ghost predicate Sized(ds: seq<Desc>, m: Slots, off: nat)
    decreases ds, 2, 0
  {
    if ds == [] then true
    else if |ds| > 1 && ds[1].More? then
      SizedRepeat(ds[0], m, off, ds[1].length) && Sized(ds[2..], m, SlotAt(off, Vsize(ds[0]), ds[1].length))
    else
      (off in m ==> SizedOne(ds[0], m, off)) && Sized(ds[1..], m, off + Vsize(ds[0]))
  }

  ghost predicate SizedRepeat(d: Desc, m: Slots, off: nat, n: nat)
    decreases d, 1, n
  {
    n == 0 || off !in m || (SizedOne(d, m, off) && SizedRepeat(d, m, off + Vsize(d), n - 1))
  }

  ghost predicate SizedOne(d: Desc, m: Slots, off: nat)
    requires off in m
    decreases d, 0, 0
  {
    match d
    case LeafDesc(_, _, _, _, _) => FieldOk(d, m[off])
    case CompoundDesc(_, _, _, children) => m[off] == Mark && Sized(children, m, off + PRESENCE)
    case More(_) => true
  }

  // ---------------------------------------------------------------- fields filled in order

  /** Of the descriptors on one level that share a type and an instance, none is present without
      those before it; and so on in the compounds that are visited. */
  ghost predicate Ordered(ds: seq<Desc>, m: Slots, base: nat)
    decreases ds, 2
  {
    forall k :: 0 <= k < |ds| ==> Leading(ds, k, m, base) && OrderedAt(ds, ds[k], k, m, base)
  }

  /** If descriptor k is present then so are those before it with its type and instance. */
  ghost predicate Leading(ds: seq<Desc>, k: nat, m: Slots, base: nat)
    requires k < |ds|
  {
    base + Offset(ds, k) in m ==> forall i :: 0 <= i < k && SameKey(ds, i, k) ==> base + Offset(ds, i) in m
  }

  /** The visited slots of one descriptor. */
  ghost predicate OrderedAt(ds: seq<Desc>, d: Desc, k: nat, m: Slots, base: nat)
    requires k < |ds| && d == ds[k]
    decreases d, 2
  {
    var off := base + Offset(ds, k);
    !d.More? ==>
      if k + 1 < |ds| && ds[k + 1].More? then OrderedRepeat(d, m, off, ds[k + 1].length)
      else off in m ==> OrderedOne(d, m, off)
  }

  ghost predicate OrderedRepeat(d: Desc, m: Slots, off: nat, n: nat)
    decreases d, 1, n
  {
    n == 0 || off !in m || (OrderedOne(d, m, off) && OrderedRepeat(d, m, off + Vsize(d), n - 1))
  }

  ghost predicate OrderedOne(d: Desc, m: Slots, off: nat)
    decreases d, 0
  {
    d.CompoundDesc? ==> Ordered(d.children, m, off + PRESENCE)
  }

  ghost predicate OrderedFrom(ds: seq<Desc>, k: nat, m: Slots, base: nat) {
    forall j :: k <= j < |ds| ==> Leading(ds, j, m, base) && OrderedAt(ds, ds[j], j, m, base)
  }

  /** A slot outside of the message has been filled. */
  ghost predicate Stray(slots: Slots, m: Slots) {
    exists o :: o in slots && o !in m
  }

  ghost predicate Spoiled(r: Parsed, m: Slots) {
    r.Parsed? ==> Stray(r.slots, m)
  }

  ghost predicate Verdict(r: Parsed, ordered: bool, want: Slots, m: Slots) {
    if ordered then r.Parsed? && r.slots == want else Spoiled(r, m)
  }

  // ---------------------------------------------------------------- values

  lemma BigEndianBytes(v: nat)
    ensures v < 0x100 ==> BigEndian(v, 1) == [v]
    ensures v < 0x1_0000 ==> BigEndian(v, 2) == [v / 0x100, v % 256]
    ensures v < 0x100_0000 ==> BigEndian(v, 3) == [v / 0x1_0000, (v / 0x100) % 256, v % 256]
    ensures v < 0x1_0000_0000 ==> BigEndian(v, 4) == [v / 0x100_0000, (v / 0x1_0000) % 256, (v / 0x100) % 256, v % 256]
  {
    hide BigEndian;
    Quotients(v);
    FourEnds(v);
  }

  lemma FourEnds(v: nat)
    ensures BigEndian(v, 1) == [v % 256]
    ensures BigEndian(v, 2) == [(v / 256) % 256, v % 256]
    ensures BigEndian(v, 3) == [(v / 256 / 256) % 256, (v / 256) % 256, v % 256]
    ensures BigEndian(v, 4) == [(v / 256 / 256 / 256) % 256, (v / 256 / 256) % 256, (v / 256) % 256, v % 256]
  {
    hide BigEndian;
    OneEnd(v);
    TwoEnds(v);
    ThreeEnds(v);
    ThreeEnds(v / 256);
    Ends(v, 3);
  }

  lemma TwoEnds(v: nat)
    ensures BigEndian(v, 2) == [(v / 256) % 256, v % 256]
  {
    hide BigEndian;
    OneEnd(v / 256);
    Ends(v, 1);
  }

  lemma ThreeEnds(v: nat)
    ensures BigEndian(v, 3) == [(v / 256 / 256) % 256, (v / 256) % 256, v % 256]
  {
    hide BigEndian;
    TwoEnds(v / 256);
    Ends(v, 2);
  }

  lemma OneEnd(v: nat)
    ensures BigEndian(v, 1) == [v % 256]
  {
    Ends(v, 0);
  }

  lemma Quotients(v: nat)
    ensures var a, b, c := v / 0x100, v / 0x100 / 0x100, v / 0x100 / 0x100 / 0x100;
            b == v / 0x1_0000 && c == v / 0x100_0000
            && (v < 0x100 ==> v % 256 == v) && (v < 0x1_0000 ==> a % 256 == a) && (v < 0x100_0000 ==> b % 256 == b)
            && (v < 0x1_0000_0000 ==> c % 256 == c)
  {
    DivDiv(v, 0x100, 0x100); DivDiv(v, 0x1_0000, 0x100);
  }

  lemma Ends(v: nat, n: nat)
    ensures BigEndian(v, 0) == [] && BigEndian(v, n + 1) == BigEndian(v / 256, n) + [v % 256]
  {}

  /** Four digits of a number. */
  lemma FourBytes(v: nat)
    ensures v == (v / 0x100_0000) * 0x100_0000 + ((v / 0x1_0000) % 256) * 0x1_0000 + ((v / 0x100) % 256) * 0x100 + v % 256
  {
    DivDiv(v, 0x100, 0x100); DivDiv(v, 0x1_0000, 0x100);
    var a, b := v / 0x100, v / 0x1_0000;
    assert v == a * 0x100 + v % 256 && a == b * 0x100 + a % 256 && b == (b / 0x100) * 0x100 + b % 256;
  }

  /** A leaf is read back as it was written. */
  lemma LeafBack(d: Desc, f: Field, e: Element, data: Data)
    requires d.LeafDesc? && FieldOk(d, f) && e.length == |LeafBytes(d, f)| && Lies(data, e.value, LeafBytes(d, f))
    ensures LengthOk(d, e.length) && ParseLeaf(d, e, data) == f
  {
    var b := LeafBytes(d, f);
    match d.ctype
    case Uint8 => LeafNumber(d, f, e, data);
    case Uint16 => LeafNumber(d, f, e, data);
    case Uint24 => LeafNumber(d, f, e, data);
    case Uint32 => LeafNumber(d, f, e, data);
    case FixedStr => assert f.bytes[..d.length] == f.bytes; assert Bytes(data, e.value, e.length) == f.bytes;
    case VarStr => assert Bytes(data, e.value, e.length) == f.bytes;
    case Empty =>
  }

  lemma LeafNumber(d: Desc, f: Field, e: Element, data: Data)
    requires d.LeafDesc? && d.ctype in {Uint8, Uint16, Uint24, Uint32}
    requires FieldOk(d, f) && e.length == |LeafBytes(d, f)| && Lies(data, e.value, LeafBytes(d, f))
    ensures LengthOk(d, e.length) && ParseLeaf(d, e, data) == f
  {
    hide BigEndian, Lies;
    ReadBack(data, e.value, f.v, |LeafBytes(d, f)|);
  }

  /** Up to four bytes, most significant first. */
  lemma ReadBack(data: Data, pos: nat, v: nat, n: nat)
    requires 1 <= n <= 4
             && v < (if n == 1 then 0x100 else if n == 2 then 0x1_0000 else if n == 3 then 0x100_0000 else 0x1_0000_0000)
    requires Lies(data, pos, BigEndian(v, n))
    ensures n == 1 ==> data(pos) == v
    ensures n == 2 ==> data(pos) * 0x100 + data(pos + 1) == v
    ensures n == 3 ==> data(pos) * 0x1_0000 + data(pos + 1) * 0x100 + data(pos + 2) == v
    ensures n == 4 ==> data(pos) * 0x100_0000 + data(pos + 1) * 0x1_0000 + data(pos + 2) * 0x100 + data(pos + 3) == v
  {
    hide BigEndian;
    var b := BigEndian(v, n);
    BigEndianBytes(v);
    FourBytes(v);
    assert data(pos + 0) == b[0];
    if n > 1 { assert data(pos + 1) == b[1]; }
    if n > 2 { assert data(pos + 2) == b[2]; }
    if n > 3 { assert data(pos + 3) == b[3]; }
  }

  // ---------------------------------------------------------------- finding the descriptor

  /** The number of the first k descriptors that have this type and instance. */
  function Rank(ds: seq<Desc>, k: nat, key: Key): nat
    requires k <= |ds|
  {
    if k == 0 then 0 else Rank(ds, k - 1, key) + if IsKey(ds[k - 1], key) then 1 else 0
  }

  /** The number of them that are present. */
  function Present(ds: seq<Desc>, k: nat, key: Key, m: Slots, base: nat): nat
    requires k <= |ds|
  {
    if k == 0 then 0
    else Present(ds, k - 1, key, m, base) + if IsKey(ds[k - 1], key) && base + Offset(ds, k - 1) in m then 1 else 0
  }

  lemma {:induction false} RankMono(ds: seq<Desc>, i: nat, k: nat, key: Key)
    requires i <= k <= |ds|
    ensures Rank(ds, i, key) <= Rank(ds, k, key)
    decreases k - i
  {
    if i < k { RankMono(ds, i, k - 1, key); }
  }

  /** The search reaches descriptor k, with the offset that building used, if it is asked for as
      many matches as there are before it. */
  lemma {:induction false} FindReaches(ds: seq<Desc>, i: nat, k: nat, key: Key)
    requires WellFormed(ds) && i <= k < |ds| && IsKey(ds[k], key)
    ensures FindFrom(ds, i, Offset(ds, i), Rank(ds, i, key), key.0, key.1, Rank(ds, k, key)) == Found(k, Offset(ds, k))
    decreases k - i
  {
    Entry(ds, k);
    hide WellFormed, EntryOk, DescOk;
    if i < k {
      RankMono(ds, i + 1, k, key);
      assert Typ(ds[i]) == key.0 && Inst(ds[i]) == key.1 ==> IsKey(ds[i], key);
      FindReaches(ds, i + 1, k, key);
    }
  }

  lemma FindIs(ds: seq<Desc>, k: nat)
    requires WellFormed(ds) && k < |ds| && !ds[k].More?
    ensures FindDesc(ds, Typ(ds[k]), Inst(ds[k]), Rank(ds, k, KeyOf(ds[k]))) == Found(k, Offset(ds, k))
  {
    FindReaches(ds, 0, k, KeyOf(ds[k]));
  }

  /** The first k descriptors are filled in order. */
  ghost predicate LeadingTo(ds: seq<Desc>, k: nat, m: Slots, base: nat) {
    forall j :: 0 <= j < k && j < |ds| ==> Leading(ds, j, m, base)
  }

  /** If they are filled in order, and not all are present, the search for the next match stops
      at an absent one. */
  lemma {:induction false} FirstGap(ds: seq<Desc>, k: nat, key: Key, m: Slots, base: nat) returns (i: nat)
    requires k <= |ds| && LeadingTo(ds, k, m, base)
    ensures Present(ds, k, key, m, base) <= Rank(ds, k, key)
    ensures Present(ds, k, key, m, base) < Rank(ds, k, key) ==>
              i < k && IsKey(ds[i], key) && Rank(ds, i, key) == Present(ds, k, key, m, base)
              && base + Offset(ds, i) !in m
    decreases k
  {
    hide Offset;
    i := 0;
    if k > 0 {
      i := FirstGap(ds, k - 1, key, m, base);
      if Present(ds, k - 1, key, m, base) == Rank(ds, k - 1, key) {
        i := k - 1;
      } else if IsKey(ds[k - 1], key) && base + Offset(ds, k - 1) in m {
        EarlierPresent(ds, i, k - 1, key, m, base);
        assert false;
      }
    }
  }

  lemma EarlierPresent(ds: seq<Desc>, i: nat, k: nat, key: Key, m: Slots, base: nat)
    requires i < k < |ds| && Leading(ds, k, m, base) && IsKey(ds[i], key) && IsKey(ds[k], key)
             && base + Offset(ds, k) in m
    ensures base + Offset(ds, i) in m
  {
    assert SameKey(ds, i, k);
  }

  /** All earlier ones are present. */
  lemma {:induction false} AllPresent(ds: seq<Desc>, k: nat, n: nat, key: Key, m: Slots, base: nat)
    requires n <= k < |ds| && IsKey(ds[k], key) && base + Offset(ds, k) in m && Leading(ds, k, m, base)
    ensures Present(ds, n, key, m, base) == Rank(ds, n, key)
    decreases n
  {
    hide Offset;
    if n > 0 {
      AllPresent(ds, k, n - 1, key, m, base);
      assert IsKey(ds[n - 1], key) ==> SameKey(ds, n - 1, k);
    }
  }

  lemma {:induction false} FreeSlotIs(slots: Slots, off: nat, vsize: nat, n: nat, i: nat, j: nat)
    requires i <= j < n && SlotAt(off, vsize, j) !in slots && forall k :: i <= k < j ==> SlotAt(off, vsize, k) in slots
    ensures FreeSlot(slots, off, vsize, n, i) == j
    decreases j - i
  {
    hide SlotAt;
    if i < j {
      assert SlotAt(off, vsize, i) in slots;
      FreeSlotIs(slots, off, vsize, n, i + 1, j);
    }
  }

  // ---------------------------------------------------------------- lists

  lemma {:induction false} RenderJoin(a: seq<Tlv>, b: seq<Tlv>)
    ensures Render(a + b) == Render(a) + Render(b) && Length(a + b) == Length(a) + Length(b)
    decreases |a|
  {
    hide RenderOne, HeaderSize, ValueLength;
    if a == [] {
      assert a + b == b;
    } else {
      assert (a + b)[0] == a[0] && (a + b)[1..] == a[1..] + b;
      RenderJoin(a[1..], b);
    }
  }

  lemma {:induction false} PlacedJoin(a: seq<Tlv>, b: seq<Tlv>, pos: nat)
    ensures Placed(a + b, pos) == Placed(a, pos) + Placed(b, pos + Length(a))
    decreases |a|
  {
    hide HeaderSize, ValueLength;
    if a == [] {
      assert a + b == b;
    } else {
      assert (a + b)[0] == a[0] && (a + b)[1..] == a[1..] + b;
      PlacedJoin(a[1..], b, pos + HeaderSize(a[0].mode) + ValueLength(a[0]));
    }
  }

  lemma {:induction false} EncodableJoin(a: seq<Tlv>, b: seq<Tlv>, mode: Mode)
    ensures AllEncodable(a + b, mode) <==> AllEncodable(a, mode) && AllEncodable(b, mode)
    decreases |a|
  {
    hide Encodable;
    if a == [] {
      assert a + b == b;
    } else {
      assert (a + b)[0] == a[0] && (a + b)[1..] == a[1..] + b;
      EncodableJoin(a[1..], b, mode);
    }
  }

  lemma {:induction false} ParseJoin(ds: seq<Desc>, a: seq<Element>, b: seq<Element>, slots: Slots, counts: Counts,
                                     base: nat, data: Data, mode: Mode)
    ensures var r := ParseList(ds, a, slots, counts, base, data, mode);
            ParseList(ds, a + b, slots, counts, base, data, mode)
              == if r == ParseError then ParseError else ParseList(ds, b, r.slots, r.counts, base, data, mode)
    decreases |a|
  {
    hide ParseOne;
    if a == [] {
      assert a + b == b;
    } else {
      assert (a + b)[0] == a[0] && (a + b)[1..] == a[1..] + b;
      var r := ParseOne(ds, a[0], slots, counts, base, data, mode);
      if r != ParseError { ParseJoin(ds, a[1..], b, r.slots, r.counts, base, data, mode); }
    }
  }

  /** Parsing never empties a slot, and fills that of every element it stores. */
  lemma {:induction false} ParseGrows(ds: seq<Desc>, es: seq<Element>, slots: Slots, counts: Counts, base: nat,
                                      data: Data, mode: Mode)
    ensures var r := ParseList(ds, es, slots, counts, base, data, mode); r.Parsed? ==> slots.Keys <= r.slots.Keys
    decreases ds, 2, |es|
  {
    hide FindPlace;
    if es != [] {
      var place := FindPlace(ds, es[0].typ, es[0].instance, slots, counts, base);
      if place.Place? && place.index < |ds| {
        StoreGrows(ds[place.index], es[0], slots, place.counts, place.off, data, mode);
      }
      var r := ParseOne(ds, es[0], slots, counts, base, data, mode);
      if r.Parsed? { ParseGrows(ds, es[1..], r.slots, r.counts, base, data, mode); }
    }
  }

  lemma {:induction false} StoreGrows(d: Desc, e: Element, slots: Slots, counts: Counts, off: nat, data: Data,
                                      mode: Mode)
    ensures var r := StoreOne(d, e, slots, counts, off, data, mode); r.Parsed? ==> slots.Keys + {off} <= r.slots.Keys
    decreases d, 0, 0
  {
    hide Fits, Elements, LengthOk, ParseLeaf, ParseList;
    if d.CompoundDesc? {
      ParseGrows(d.children, Elements(data, e.value, e.value + e.length, mode), slots, map[], off + PRESENCE, data,
                 mode);
    }
  }

  /** A stray slot stays. */
  lemma StrayStays(ds: seq<Desc>, es: seq<Element>, slots: Slots, counts: Counts, base: nat, data: Data, mode: Mode,
                   m: Slots)
    requires Stray(slots, m)
    ensures Spoiled(ParseList(ds, es, slots, counts, base, data, mode), m)
  {
    hide ParseList;
    ParseGrows(ds, es, slots, counts, base, data, mode);
    var o :| o in slots && o !in m;
    assert o in slots.Keys;
  }

  /** No slot of the range is present. */
  ghost predicate Vacant(slots: Slots, from: nat, to: nat) {
    forall o :: from <= o < to ==> o !in slots
  }

  ghost predicate Within(slots: Slots, from: nat, to: nat) {
    forall o :: o in slots ==> from <= o < to
  }

  lemma {:induction false} OffsetMono(ds: seq<Desc>, i: nat, k: nat)
    requires i <= k <= |ds|
    ensures Offset(ds, i) <= Offset(ds, k)
    decreases k - i
  {
    if i < k { OffsetMono(ds, i, k - 1); }
  }

  /** The slots of one descriptor lie within its size. */
  lemma {:induction false} VisitedOneWithin(d: Desc, m: Slots, off: nat)
    requires DescOk(d) && off in m && !d.More?
    ensures Within(VisitedOne(d, m, off), off, off + Vsize(d)) && off in VisitedOne(d, m, off)
    decreases d, 0, 0
  {
    hide WellFormed;
    if d.CompoundDesc? {
      if d.children != [] { Entry(d.children, 0); }
      VisitedWithin(d.children, m, off + PRESENCE, 0);
      assert d.children[0..] == d.children;
    }
  }

  lemma {:induction false} VisitedRepeatWithin(d: Desc, m: Slots, off: nat, n: nat)
    requires DescOk(d) && !d.More?
    ensures Within(VisitedRepeat(d, m, off, n), off, SlotAt(off, Vsize(d), n))
    decreases d, 1, n
  {
    if n > 0 && off in m {
      VisitedOneWithin(d, m, off);
      VisitedRepeatWithin(d, m, off + Vsize(d), n - 1);
      MulDistrib(Vsize(d), n - 1, 1);
      MulLe(Vsize(d), 0, n - 1);
    }
  }

  lemma {:induction false} VisitedWithin(all: seq<Desc>, m: Slots, base: nat, k: nat)
    requires WellFormed(all) && k <= |all| && (k < |all| ==> !all[k].More?)
    ensures Within(Visited(all[k..], m, base + Offset(all, k)), base + Offset(all, k), base + Extent(all))
    decreases all, 2, |all| - k
  {
    hide WellFormed, DescOk, EntryOk, Offset, VisitedOne, VisitedRepeat;
    if k < |all| {
      var d := all[k];
      Entry(all, k);
      var off := base + Offset(all, k);
      assert all[k..][0] == d;
      if k + 1 < |all| && all[k + 1].More? {
        Entry(all, k + 1);
        var n := all[k + 1].length;
        GroupOffset(all, k, base);
        assert all[k..][1] == all[k + 1] && all[k..][2..] == all[k + 2..];
        if k + 2 < |all| { Entry(all, k + 2); }
        VisitedRepeatWithin(d, m, off, n);
        VisitedWithin(all, m, base, k + 2);
        OffsetMono(all, k, |all|); OffsetMono(all, k + 2, |all|); OffsetMono(all, k, k + 2);
      } else {
        assert all[k..][1..] == all[k + 1..];
        NextOffset(all, k);
        if off in m { VisitedOneWithin(d, m, off); }
        VisitedWithin(all, m, base, k + 1);
        OffsetMono(all, k, |all|); OffsetMono(all, k + 1, |all|);
      }
    }
  }

  lemma Entry(all: seq<Desc>, k: nat)
    requires WellFormed(all) && k < |all|
    ensures DescOk(all[k])
    ensures if all[k].More? then k > 0 && !all[k - 1].More? && all[k].length > 0 else Typ(all[k]) > 0 && Vsize(all[k]) > 0
  {
    assert EntryOk(all, k) && DescOk(all[k]);
  }

  lemma NextOffset(all: seq<Desc>, k: nat)
    requires k < |all| && !all[k].More?
    ensures Offset(all, k + 1) == Offset(all, k) + Vsize(all[k])
  {}

  /** A repeated descriptor and its `More` together take up all the repetitions. */
  lemma GroupOffset(all: seq<Desc>, k: nat, base: nat)
    requires k + 1 < |all| && !all[k].More? && all[k + 1].More? && all[k + 1].length > 0
    ensures base + Offset(all, k + 2) == SlotAt(base + Offset(all, k), Vsize(all[k]), all[k + 1].length)
    ensures base + Offset(all, k) <= base + Offset(all, k + 2)
  {
    assert Offset(all, k + 2) == Offset(all, k + 1) + Step(all, k + 1);
    assert Offset(all, k + 1) == Offset(all, k) + Step(all, k);
    MulDistrib(Vsize(all[k]), all[k + 1].length, 1);
  }

  // ---------------------------------------------------------------- one slot

  /** The elements can be encoded, and their rendering lies at pos. */
  ghost predicate Sent(ts: seq<Tlv>, pos: nat, data: Data, mode: Mode) {
    AllEncodable(ts, mode) && Lies(data, pos, Render(ts))
  }

  ghost predicate Builds(ds: seq<Desc>, m: Slots, off: nat, mode: Mode, ts: seq<Tlv>) {
    BuildList(ds, m, off, mode) == Built(ts)
  }

  lemma StoreLeaf(d: Desc, m: Slots, off: nat, t: Tlv, e: Element, slots: Slots, counts: Counts, data: Data, mode: Mode)
    requires d.LeafDesc? && off in m && BuildOne(d, m, off, mode) == Built([t]) && SizedOne(d, m, off)
    requires e.length == ValueLength(t) && Lies(data, e.value, Payload(t))
    ensures StoreOne(d, e, slots, counts, off, data, mode) == Parsed(Plus(slots, VisitedOne(d, m, off)), counts)
  {
    hide Lies, LeafBytes, FieldOk, ParseLeaf, LengthOk;
    assert t.value == Leaf(LeafBytes(d, m[off]));
    LeafBack(d, m[off], e, data);
    assert slots + map[off := m[off]] == slots[off := m[off]];
  }

  /** The block of a compound, parsed and marked present. */
  lemma StoreBlock(d: Desc, e: Element, slots: Slots, counts: Counts, off: nat, data: Data, mode: Mode, v: Slots,
                   m: Slots)
    requires d.CompoundDesc? && off in m && m[off] == Mark && Fits(data, e.value, e.value + e.length, mode)
             && v == Visited(d.children, m, off + PRESENCE)
    requires var r := ParseList(d.children, Elements(data, e.value, e.value + e.length, mode), slots, map[],
                                off + PRESENCE, data, mode);
             r.Parsed? && r.slots == Plus(slots, v)
    ensures StoreOne(d, e, slots, counts, off, data, mode) == Parsed(Plus(slots, VisitedOne(d, m, off)), counts)
  {
    hide Fits, Elements, ParseList, Visited;
    assert (slots + v)[off := Mark] == slots + v[off := Mark];
  }

  lemma StoreSpoiled(d: Desc, e: Element, slots: Slots, counts: Counts, off: nat, data: Data, mode: Mode, m: Slots)
    requires d.CompoundDesc?
    requires Spoiled(ParseList(d.children, Elements(data, e.value, e.value + e.length, mode), slots, map[], off + PRESENCE, data, mode), m)
    ensures Spoiled(StoreOne(d, e, slots, counts, off, data, mode), m)
  {
    hide Fits, Elements, ParseList, Stray;
    var r := ParseList(d.children, Elements(data, e.value, e.value + e.length, mode), slots, map[], off + PRESENCE,
                       data, mode);
    if r.Parsed? { StrayMore(r.slots, off, m); }
  }

  lemma StrayMore(slots: Slots, off: nat, m: Slots)
    requires Stray(slots, m)
    ensures Stray(slots[off := Mark], m)
  {
    var o :| o in slots && o !in m;
    assert o in slots[off := Mark];
  }

  /** Before the first descriptor nothing is counted, and from it on everything is to be in order. */
  lemma NoneBefore(ds: seq<Desc>, m: Slots, base: nat)
    ensures LeadingTo(ds, 0, m, base) && CountsAre(ds, 0, map[], m, base)
    ensures OrderedFrom(ds, 0, m, base) <==> Ordered(ds, m, base)
  {
    hide Leading, OrderedAt;
  }

  lemma BuiltBlock(d: Desc, m: Slots, off: nat, t: Tlv, mode: Mode) returns (ts: seq<Tlv>)
    requires d.CompoundDesc? && off in m && BuildOne(d, m, off, mode) == Built([t]) && SizedOne(d, m, off)
             && Encodable(t, mode)
    ensures ts != [] && t.value == Block(ts) && Builds(d.children, m, off + PRESENCE, mode, ts)
    ensures m[off] == Mark && Sized(d.children, m, off + PRESENCE) && AllEncodable(ts, mode)
    ensures ValueLength(t) == Length(ts) && Payload(t) == Render(ts)
  {
    hide BuildList, Sized, Render;
    ts := t.value.elements;
  }

  /** What BuildOne built is stored back in its slot. */
  lemma {:induction false} StoreBuilt(d: Desc, m: Slots, off: nat, t: Tlv, e: Element, slots: Slots, counts: Counts,
                                      data: Data, mode: Mode)
    requires DescOk(d) && !d.More? && off in m && BuildOne(d, m, off, mode) == Built([t]) && SizedOne(d, m, off)
    requires Encodable(t, mode) && e.length == ValueLength(t) && Lies(data, e.value, Payload(t))
    requires Vacant(slots, off, off + Vsize(d))
    ensures OrderedOne(d, m, off) ==>
              StoreOne(d, e, slots, counts, off, data, mode) == Parsed(Plus(slots, VisitedOne(d, m, off)), counts)
    ensures !OrderedOne(d, m, off) ==> Spoiled(StoreOne(d, e, slots, counts, off, data, mode), m)
    decreases d, 0, 0
  {
    hide WellFormed, Lies, Elements, Fits, ParseList, Builds, Visited, Sized, BuildOne, SizedOne, StoreOne, VisitedOne,
         Encodable, ValueLength, Payload, Ordered, Spoiled;
    if d.LeafDesc? {
      StoreLeaf(d, m, off, t, e, slots, counts, data, mode);
    } else {
      var children, base := d.children, off + PRESENCE;
      var ts := BuiltBlock(d, m, off, t, mode);
      ParseRendered(data, e.value, ts, mode);
      if children != [] { Entry(children, 0); }
      assert children[0..] == children;
      NoOffset(children);
      NoneBefore(children, m, base);
      ParseBuilt(children, 0, m, base, base, ts, e.value, slots, map[], data, mode);
      if Ordered(children, m, base) {
        StoreBlock(d, e, slots, counts, off, data, mode, Visited(children, m, base), m);
      } else {
        StoreSpoiled(d, e, slots, counts, off, data, mode, m);
      }
    }
  }

  lemma NoOffset(ds: seq<Desc>)
    ensures Offset(ds, 0) == 0
  {}

  /** The first element of a list and the rest. */
  lemma ConsParts(t: Tlv, rest: seq<Tlv>, pos: nat, data: Data, mode: Mode) returns (e: Element, next: nat)
    requires Sent([t] + rest, pos, data, mode)
    ensures Encodable(t, mode) && e.length == ValueLength(t) && e.typ == t.typ && e.instance == t.instance
    ensures Placed([t] + rest, pos) == [e] + Placed(rest, next) && Lies(data, e.value, Payload(t))
            && Sent(rest, next, data, mode)
  {
    hide Encodable, Lies, Header, ValueLength, Payload;
    var ts := [t] + rest;
    assert ts[0] == t && ts[1..] == rest;
    PayloadLength(t);
    LiesParts(data, pos, RenderOne(t), Render(rest));
    LiesParts(data, pos, Header(t.mode, t.typ, ValueLength(t), t.instance), Payload(t));
    e := Element(t.mode, t.typ, ValueLength(t), t.instance, pos + HeaderSize(t.mode));
    next := e.value + ValueLength(t);
  }

  lemma ParseCons(ds: seq<Desc>, e: Element, es: seq<Element>, slots: Slots, counts: Counts, base: nat, data: Data,
                  mode: Mode)
    ensures var r := ParseOne(ds, e, slots, counts, base, data, mode);
            ParseList(ds, [e] + es, slots, counts, base, data, mode)
              == if r == ParseError then ParseError else ParseList(ds, es, r.slots, r.counts, base, data, mode)
  {
    hide ParseOne;
    assert ([e] + es)[0] == e && ([e] + es)[1..] == es;
  }

  lemma ParseNone(ds: seq<Desc>, slots: Slots, counts: Counts, base: nat, data: Data, mode: Mode)
    ensures ParseList(ds, [], slots, counts, base, data, mode) == Parsed(slots, counts)
  {}

  lemma ParsePlaced(ds: seq<Desc>, e: Element, slots: Slots, counts: Counts, base: nat, data: Data, mode: Mode, k: nat,
                    off: nat, counts': Counts)
    requires k < |ds| && FindPlace(ds, e.typ, e.instance, slots, counts, base) == Place(k, off, counts')
    ensures ParseOne(ds, e, slots, counts, base, data, mode) == StoreOne(ds[k], e, slots, counts', off, data, mode)
  {
    hide FindPlace, StoreOne;
  }

  // ---------------------------------------------------------------- the place of an element

  /** The first j repeated slots are present. */
  ghost predicate Filled(slots: Slots, start: nat, v: nat, j: nat) {
    forall i :: 0 <= i < j ==> SlotAt(start, v, i) in slots
  }

  lemma FilledMore(slots: Slots, w: Slots, start: nat, v: nat, j: nat)
    requires Filled(slots, start, v, j) && SlotAt(start, v, j) in w
    ensures Filled(Plus(slots, w), start, v, j + 1)
  {}

  function CountOf(counts: Counts, key: Key): nat { if key in counts then counts[key] else 0 }

  /** The counts are right for the descriptors from k on. */
  ghost predicate CountsAre(all: seq<Desc>, k: nat, counts: Counts, m: Slots, base: nat)
    requires k <= |all|
  {
    |counts| <= k
    && forall j :: k <= j < |all| && !all[j].More? ==>
         CountOf(counts, KeyOf(all[j])) == Present(all, k, KeyOf(all[j]), m, base)
  }

  /** The place of an element with the key of descriptor k, whose count is c. */
  ghost predicate Counted(all: seq<Desc>, k: nat, counts: Counts, key: Key, c: nat)
    requires k <= |all|
  {
    CountOf(counts, key) == c && (key in counts || |counts| <= k)
  }

  lemma CountedSame(all: seq<Desc>, k: nat, counts: Counts, key: Key, c: nat)
    requires k <= |all| && Counted(all, k, counts, key, c)
    ensures Counted(all, k, counts[key := c], key, c)
  {}

  lemma PlaceRepeat(all: seq<Desc>, k: nat, j: nat, slots: Slots, counts: Counts, base: nat, c: nat)
    requires WellFormed(all) && k + 1 < |all| && !all[k].More? && all[k + 1].More? && j < all[k + 1].length
    requires SlotAt(base + Offset(all, k), Vsize(all[k]), j) !in slots
    requires Filled(slots, base + Offset(all, k), Vsize(all[k]), j)
    requires Counted(all, k, counts, KeyOf(all[k]), c) && c == Rank(all, k, KeyOf(all[k]))
    ensures var key := KeyOf(all[k]);
            FindPlace(all, key.0, key.1, slots, counts, base) == Place(k, SlotAt(base + Offset(all, k), Vsize(all[k]), j), counts[key := c])
  {
    hide WellFormed, FindDesc, FreeSlot, Offset, Rank;
    assert |all| < MAX_CHILD_DESC by { TableSize(all); }
    FindIs(all, k);
    FreeSlotIs(slots, base + Offset(all, k), Vsize(all[k]), all[k + 1].length, 0, j);
    var key := KeyOf(all[k]);
    if key in counts { assert counts[key := c] == counts; }
  }

  lemma TableSize(all: seq<Desc>)
    requires WellFormed(all)
    ensures |all| < MAX_CHILD_DESC
  {}

  lemma PlaceSingle(all: seq<Desc>, k: nat, slots: Slots, counts: Counts, base: nat, c: nat)
    requires WellFormed(all) && k < |all| && !all[k].More? && !(k + 1 < |all| && all[k + 1].More?)
    requires (KeyOf(all[k]) in counts || |counts| < |all|)
             && CountOf(counts, KeyOf(all[k])) == c == Rank(all, k, KeyOf(all[k]))
    ensures var key := KeyOf(all[k]);
            FindPlace(all, key.0, key.1, slots, counts, base) == Place(k, base + Offset(all, k), counts[key := c + 1])
  {
    hide WellFormed, FindDesc, FreeSlot, Offset, Rank;
    assert |all| < MAX_CHILD_DESC by { TableSize(all); }
    FindIs(all, k);
    var key := KeyOf(all[k]);
    assert counts[key := 0][key := 1] == counts[key := 1];
  }

  /** An element of descriptor k, when an earlier one of its type and instance is absent: it is
      stored there, outside of the message. */
  lemma Misplaced(all: seq<Desc>, k: nat, e: Element, slots: Slots, counts: Counts, base: nat, data: Data, mode: Mode,
                  m: Slots)
    requires WellFormed(all) && k < |all| && !all[k].More? && e.typ == Typ(all[k]) && e.instance == Inst(all[k])
    requires CountsAre(all, k, counts, m, base) && LeadingTo(all, k, m, base)
    requires base + Offset(all, k) in m && !Leading(all, k, m, base)
    ensures Spoiled(ParseOne(all, e, slots, counts, base, data, mode), m)
  {
    hide WellFormed, CountsAre, LeadingTo, Leading, Offset, Rank, Present, StoreOne, FindPlace, ParseOne, Spoiled;
    var key, c := KeyOf(all[k]), CountOf(counts, KeyOf(all[k]));
    var i := GapBefore(all, k, counts, m, base);
    PlaceSingle(all, i, slots, counts, base, c);
    ParsePlaced(all, e, slots, counts, base, data, mode, i, base + Offset(all, i), counts[key := c + 1]);
    StoredStray(all[i], e, slots, counts[key := c + 1], base + Offset(all, i), data, mode, m);
  }

  lemma StoredStray(d: Desc, e: Element, slots: Slots, counts: Counts, off: nat, data: Data, mode: Mode, m: Slots)
    requires off !in m
    ensures Spoiled(StoreOne(d, e, slots, counts, off, data, mode), m)
  {
    hide StoreOne;
    StoreGrows(d, e, slots, counts, off, data, mode);
  }

  lemma GapBefore(all: seq<Desc>, k: nat, counts: Counts, m: Slots, base: nat) returns (i: nat)
    requires WellFormed(all) && k < |all| && !all[k].More? && CountsAre(all, k, counts, m, base)
             && LeadingTo(all, k, m, base)
    requires base + Offset(all, k) in m && !Leading(all, k, m, base)
    ensures i < k && IsKey(all[i], KeyOf(all[k])) && !all[i + 1].More? && base + Offset(all, i) !in m
    ensures CountOf(counts, KeyOf(all[k])) == Rank(all, i, KeyOf(all[k])) && |counts| < |all|
  {
    hide Offset, Rank, Present, LeadingTo;
    var key := KeyOf(all[k]);
    i := FirstGap(all, k, key, m, base);
    if Present(all, k, key, m, base) == Rank(all, k, key) {
      NoGap(all, k, k, key, m, base);
      assert false;
    }
    assert SameKey(all, i, k);
  }

  /** If as many are present as there are, all are. */
  lemma {:induction false} NoGap(ds: seq<Desc>, k: nat, n: nat, key: Key, m: Slots, base: nat)
    requires n <= k < |ds| && IsKey(ds[k], key) && Present(ds, n, key, m, base) == Rank(ds, n, key)
    ensures forall i :: 0 <= i < n && SameKey(ds, i, k) ==> base + Offset(ds, i) in m
    decreases n
  {
    hide Offset;
    if n > 0 {
      PresentLe(ds, n - 1, key, m, base);
      NoGap(ds, k, n - 1, key, m, base);
    }
  }

  lemma {:induction false} PresentLe(ds: seq<Desc>, n: nat, key: Key, m: Slots, base: nat)
    requires n <= |ds|
    ensures Present(ds, n, key, m, base) <= Rank(ds, n, key)
    decreases n
  {
    hide Offset;
    if n > 0 { PresentLe(ds, n - 1, key, m, base); }
  }

  /** A single descriptor, counted if it is present. */
  lemma CountOne(all: seq<Desc>, k: nat, counts: Counts, m: Slots, base: nat)
    requires k < |all| && !all[k].More? && CountsAre(all, k, counts, m, base)
    ensures var key := KeyOf(all[k]);
            CountsAre(all, k + 1, if base + Offset(all, k) in m then counts[key := CountOf(counts, key) + 1] else counts, m, base)
  {
    hide Offset;
    var key := KeyOf(all[k]);
    var counts' := if base + Offset(all, k) in m then counts[key := CountOf(counts, key) + 1] else counts;
    forall j | k + 1 <= j < |all| && !all[j].More?
      ensures CountOf(counts', KeyOf(all[j])) == Present(all, k + 1, KeyOf(all[j]), m, base)
    {
      assert CountOf(counts, KeyOf(all[j])) == Present(all, k, KeyOf(all[j]), m, base);
    }
  }

  lemma LastOfKey(all: seq<Desc>, k: nat, j: nat)
    requires WellFormed(all) && k + 1 < j < |all| && !all[k].More? && all[k + 1].More? && !all[j].More?
    ensures KeyOf(all[j]) != KeyOf(all[k])
  {
    if KeyOf(all[j]) == KeyOf(all[k]) { assert SameKey(all, k, j); }
  }

  /** A repeated descriptor, which is the last of its type and instance. */
  lemma CountGroup(all: seq<Desc>, k: nat, counts: Counts, m: Slots, base: nat, v: nat, some: bool)
    requires WellFormed(all) && k + 1 < |all| && !all[k].More? && all[k + 1].More? && CountsAre(all, k, counts, m, base)
    ensures CountsAre(all, k + 2, if some then counts[KeyOf(all[k]) := v] else counts, m, base)
  {
    hide Offset;
    var key := KeyOf(all[k]);
    var counts' := if some then counts[key := v] else counts;
    forall j | k + 2 <= j < |all| && !all[j].More?
      ensures CountOf(counts', KeyOf(all[j])) == Present(all, k + 2, KeyOf(all[j]), m, base)
    {
      assert CountOf(counts, KeyOf(all[j])) == Present(all, k, KeyOf(all[j]), m, base);
      LastOfKey(all, k, j);
      assert Present(all, k + 1, KeyOf(all[j]), m, base) == Present(all, k, KeyOf(all[j]), m, base);
    }
  }

  // ---------------------------------------------------------------- the theorem

  /** The first slot of a repeated descriptor, and those after it. */
  lemma RepeatParts(d: Desc, m: Slots, off: nat, n: nat, ts: seq<Tlv>, mode: Mode) returns (t: Tlv, rest: seq<Tlv>)
    requires n > 0 && off in m && BuildRepeat(d, m, off, n, mode) == Built(ts) && SizedRepeat(d, m, off, n) && !d.More?
    ensures ts == [t] + rest && BuildOne(d, m, off, mode) == Built([t]) && SizedOne(d, m, off)
    ensures BuildRepeat(d, m, off + Vsize(d), n - 1, mode) == Built(rest) && SizedRepeat(d, m, off + Vsize(d), n - 1)
    ensures VisitedRepeat(d, m, off, n) == Plus(VisitedOne(d, m, off), VisitedRepeat(d, m, off + Vsize(d), n - 1))
    ensures t.typ == Typ(d) && t.instance == Inst(d)
  {
    hide SizedOne, VisitedOne;
    OneBuilt(d, m, off, mode);
    hide BuildOne;
    t := BuildOne(d, m, off, mode).ts[0];
    rest := BuildRepeat(d, m, off + Vsize(d), n - 1, mode).ts;
  }

  lemma OneBuilt(d: Desc, m: Slots, off: nat, mode: Mode)
    requires off in m && !d.More?
    ensures var r := BuildOne(d, m, off, mode); r == Failed || (|r.ts| == 1 && r == Built([r.ts[0]]) && r.ts[0].typ == Typ(d) && r.ts[0].instance == Inst(d))
  {
    hide BuildList, LeafBytes;
  }

  /** The elements of a repeated descriptor, from the j-th of n slots on. */
  lemma {:induction false} ParseRepeat(all: seq<Desc>, k: nat, d: Desc, n: nat, start: nat, m: Slots, base: nat,
                                       j: nat, rem: nat, off: nat,
                                       ts: seq<Tlv>, pos: nat, slots: Slots, counts: Counts, data: Data, mode: Mode, c: nat)
    requires WellFormed(all) && k + 1 < |all| && d == all[k] && !d.More? && all[k + 1] == More(n) && j + rem == n
    requires start == base + Offset(all, k) && off == SlotAt(start, Vsize(d), j)
    requires BuildRepeat(d, m, off, rem, mode) == Built(ts) && SizedRepeat(d, m, off, rem)
    requires Vacant(slots, off, SlotAt(start, Vsize(d), n)) && Filled(slots, start, Vsize(d), j)
    requires Sent(ts, pos, data, mode)
    requires Counted(all, k, counts, KeyOf(d), c) && c == Rank(all, k, KeyOf(d))
    ensures var r := ParseList(all, Placed(ts, pos), slots, counts, base, data, mode);
            if OrderedRepeat(d, m, off, rem) then
              r == Parsed(Plus(slots, VisitedRepeat(d, m, off, rem)), if ts == [] then counts else counts[KeyOf(d) := c])
            else Spoiled(r, m)
    decreases d, 1, rem
  {
    hide Plus, WellFormed, BuildOne, SizedOne, VisitedOne, OrderedOne, Lies, Sent, Encodable, Offset, FindPlace,
         DescOk, StoreOne, ValueLength, Payload, Filled, Placed, ParseOne, ParseList, SlotAt, Vacant, Within, Spoiled,
         Rank, Counted;
    if rem == 0 || off !in m {
      NothingPlaced(pos);
      ParseNone(all, slots, counts, base, data, mode);
      PlusNone(slots);
    } else {
      var t, rest := RepeatParts(d, m, off, rem, ts, mode);
      OrderedParts(d, m, off, rem);
      hide BuildRepeat, SizedRepeat, VisitedRepeat, OrderedRepeat;
      var e, next := ConsParts(t, rest, pos, data, mode);
      var counts', v := ParseRepeated(all, k, d, n, start, m, base, j, off, t, e, Placed(rest, next), slots, counts,
                                      data, mode, c);
      if OrderedOne(d, m, off) {
        ParseRepeat(all, k, d, n, start, m, base, j + 1, rem - 1, off + Vsize(d), rest, next, Plus(slots, v), counts',
                    data, mode, c);
        var w := VisitedRepeat(d, m, off + Vsize(d), rem - 1);
        PlusAssoc(slots, v, w);
        SetTwice(counts, KeyOf(d), c);
      }
    }
  }

  lemma OrderedParts(d: Desc, m: Slots, off: nat, n: nat)
    requires n > 0 && off in m
    ensures OrderedRepeat(d, m, off, n) <==> OrderedOne(d, m, off) && OrderedRepeat(d, m, off + Vsize(d), n - 1)
  {
    hide OrderedOne;
  }

  /** One element of a repeated descriptor, in the j-th slot. */
  lemma ParseRepeated(all: seq<Desc>, k: nat, d: Desc, n: nat, start: nat, m: Slots, base: nat, j: nat, off: nat,
                      t: Tlv, e: Element, es: seq<Element>, slots: Slots, counts: Counts, data: Data, mode: Mode, c: nat)
    returns (counts': Counts, v: Slots)
    requires WellFormed(all) && k + 1 < |all| && d == all[k] && !d.More? && all[k + 1] == More(n) && j < n
    requires start == base + Offset(all, k) && off == SlotAt(start, Vsize(d), j) && off in m
    requires BuildOne(d, m, off, mode) == Built([t]) && SizedOne(d, m, off) && t.typ == Typ(d) && t.instance == Inst(d)
    requires Vacant(slots, off, SlotAt(start, Vsize(d), n)) && Filled(slots, start, Vsize(d), j)
    requires Encodable(t, mode) && Lies(data, e.value, Payload(t)) && e.length == ValueLength(t) && e.typ == t.typ
             && e.instance == t.instance
    requires Counted(all, k, counts, KeyOf(d), c) && c == Rank(all, k, KeyOf(d))
    ensures counts' == counts[KeyOf(d) := c] && v == VisitedOne(d, m, off) && Counted(all, k, counts', KeyOf(d), c)
    ensures var r := ParseList(all, [e] + es, slots, counts, base, data, mode);
            if OrderedOne(d, m, off) then r == ParseList(all, es, Plus(slots, v), counts', base, data, mode) else Spoiled(r, m)
    ensures Vacant(Plus(slots, v), off + Vsize(d), SlotAt(start, Vsize(d), n))
            && Filled(Plus(slots, v), start, Vsize(d), j + 1)
    ensures off + Vsize(d) == SlotAt(start, Vsize(d), j + 1)
    decreases d, 1, 0
  {
    hide Plus, WellFormed, BuildOne, SizedOne, VisitedOne, OrderedOne, Lies, Encodable, Offset, FindPlace, DescOk,
         StoreOne, ValueLength, Payload, Filled, ParseOne, ParseList, SlotAt, Vacant, Within, Rank, Counted, Spoiled;
    Entry(all, k);
    CountedSame(all, k, counts, KeyOf(d), c);
    NextSlot(start, Vsize(d), j, n);
    VacantFirst(slots, off, Vsize(d), SlotAt(start, Vsize(d), n));
    counts' := counts[KeyOf(d) := c];
    v := VisitedOne(d, m, off);
    PlaceRepeat(all, k, j, slots, counts, base, c);
    ParsePlaced(all, e, slots, counts, base, data, mode, k, off, counts');
    StoreBuilt(d, m, off, t, e, slots, counts', data, mode);
    VisitedOneWithin(d, m, off);
    ParseFirst(all, e, es, slots, counts, base, data, mode, m);
    FilledMore(slots, v, start, Vsize(d), j);
    VacantAfter(slots, v, off, Vsize(d), SlotAt(start, Vsize(d), n));
  }

  /** The first element decides: an error or a stray slot stays. */
  lemma ParseFirst(ds: seq<Desc>, e: Element, es: seq<Element>, slots: Slots, counts: Counts, base: nat, data: Data,
                   mode: Mode, m: Slots)
    ensures var r := ParseOne(ds, e, slots, counts, base, data, mode);
            var q := ParseList(ds, [e] + es, slots, counts, base, data, mode);
            (Spoiled(r, m) ==> Spoiled(q, m))
            && (r.Parsed? ==> q == ParseList(ds, es, r.slots, r.counts, base, data, mode))
  {
    hide ParseOne, ParseList, Stray;
    var r := ParseOne(ds, e, slots, counts, base, data, mode);
    ParseCons(ds, e, es, slots, counts, base, data, mode);
    if r.Parsed? && Stray(r.slots, m) { StrayStays(ds, es, r.slots, r.counts, base, data, mode, m); }
  }

  lemma PlusAssoc(a: Slots, b: Slots, c: Slots)
    ensures Plus(Plus(a, b), c) == Plus(a, Plus(b, c))
  {}

  lemma PlusNone(a: Slots)
    ensures Plus(a, map[]) == a && Plus(map[], a) == a
  {}

  lemma SetTwice(counts: Counts, key: Key, c: nat)
    ensures counts[key := c][key := c] == counts[key := c]
  {}

  lemma NothingPlaced(pos: nat)
    ensures Placed([], pos) == []
  {}

  lemma VacantFirst(slots: Slots, off: nat, v: nat, to: nat)
    requires Vacant(slots, off, to) && v > 0 && off + v <= to
    ensures off !in slots && Vacant(slots, off, off + v)
  {}

  /** Filling the first part of a vacant range leaves the rest vacant. */
  lemma VacantAfter(slots: Slots, w: Slots, off: nat, v: nat, to: nat)
    requires Vacant(slots, off, to) && Within(w, off, off + v)
    ensures Vacant(Plus(slots, w), off + v, to)
  {}

  lemma NextSlot(start: nat, v: nat, j: nat, n: nat)
    requires j < n
    ensures SlotAt(start, v, j + 1) == SlotAt(start, v, j) + v && SlotAt(start, v, j + 1) <= SlotAt(start, v, n)
  {
    MulDistrib(v, j, 1);
    MulLe(v, j + 1, n);
  }

  lemma ListParts(ds: seq<Desc>, m: Slots, off: nat, ts: seq<Tlv>, mode: Mode) returns (a: seq<Tlv>, b: seq<Tlv>)
    requires ds != [] && Builds(ds, m, off, mode, ts)
    ensures ts == a + b
    ensures if |ds| > 1 && ds[1].More? then
              BuildRepeat(ds[0], m, off, ds[1].length, mode) == Built(a)
              && Builds(ds[2..], m, SlotAt(off, Vsize(ds[0]), ds[1].length), mode, b)
            else
              (if off in m then BuildOne(ds[0], m, off, mode) else Built([])) == Built(a)
              && Builds(ds[1..], m, off + Vsize(ds[0]), mode, b)
  {
    hide BuildOne, BuildRepeat;
    if |ds| > 1 && ds[1].More? {
      a, b := BuildRepeat(ds[0], m, off, ds[1].length, mode).ts, BuildList(ds[2..], m, SlotAt(off, Vsize(ds[0]), ds[1].length), mode).ts;
    } else {
      a := if off in m then BuildOne(ds[0], m, off, mode).ts else [];
      b := BuildList(ds[1..], m, off + Vsize(ds[0]), mode).ts;
    }
  }

  lemma JoinParts(a: seq<Tlv>, b: seq<Tlv>, pos: nat, data: Data, mode: Mode)
    requires Sent(a + b, pos, data, mode)
    ensures Sent(a, pos, data, mode) && Sent(b, pos + Length(a), data, mode)
    ensures Placed(a + b, pos) == Placed(a, pos) + Placed(b, pos + Length(a))
  {
    hide AllEncodable, Lies, Render, Placed, Length;
    RenderJoin(a, b);
    RenderLength(a);
    PlacedJoin(a, b, pos);
    EncodableJoin(a, b, mode);
    LiesParts(data, pos, Render(a), Render(b));
  }

  /** A single slot that is present. */
  lemma ParseSingle(all: seq<Desc>, k: nat, m: Slots, base: nat, off: nat, a: seq<Tlv>, pos: nat, slots: Slots,
                    counts: Counts, data: Data, mode: Mode)
    requires WellFormed(all) && k < |all| && !all[k].More? && !(k + 1 < |all| && all[k + 1].More?)
    requires CountsAre(all, k, counts, m, base) && LeadingTo(all, k, m, base)
    requires off == base + Offset(all, k) && off in m && BuildOne(all[k], m, off, mode) == Built(a)
             && SizedOne(all[k], m, off)
    requires Sent(a, pos, data, mode) && Vacant(slots, off, off + Vsize(all[k]))
    ensures var r, key := ParseList(all, Placed(a, pos), slots, counts, base, data, mode), KeyOf(all[k]);
            if Leading(all, k, m, base) && OrderedOne(all[k], m, off) then
              r == Parsed(Plus(slots, VisitedOne(all[k], m, off)), counts[key := CountOf(counts, key) + 1])
            else Spoiled(r, m)
    decreases all[k], 1, 0
  {
    hide Plus, WellFormed, BuildOne, SizedOne, VisitedOne, OrderedOne, Lies, Sent, Encodable, Offset, FindPlace,
         DescOk, StoreOne, ValueLength, Payload, Placed, Vacant, CountsAre, CountOf, LeadingTo, Leading, ParseOne,
         ParseList, Spoiled, Rank, Present;
    var d, c := all[k], CountOf(counts, KeyOf(all[k]));
    Entry(all, k);
    OneBuilt(d, m, off, mode);
    var t := a[0];
    assert a == [t] + [];
    var e, next := ConsParts(t, [], pos, data, mode);
    NothingPlaced(next);
    ParseFirst(all, e, [], slots, counts, base, data, mode, m);
    if Leading(all, k, m, base) {
      CountIsRank(all, k, counts, m, base);
      PlaceSingle(all, k, slots, counts, base, c);
      ParsePlaced(all, e, slots, counts, base, data, mode, k, off, counts[KeyOf(d) := c + 1]);
      StoreBuilt(d, m, off, t, e, slots, counts[KeyOf(d) := c + 1], data, mode);
      ParseNone(all, Plus(slots, VisitedOne(d, m, off)), counts[KeyOf(d) := c + 1], base, data, mode);
    } else {
      Misplaced(all, k, e, slots, counts, base, data, mode, m);
    }
  }

  lemma CountIsRank(all: seq<Desc>, k: nat, counts: Counts, m: Slots, base: nat)
    requires k < |all| && !all[k].More? && CountsAre(all, k, counts, m, base) && Leading(all, k, m, base)
             && base + Offset(all, k) in m
    ensures CountOf(counts, KeyOf(all[k])) == Rank(all, k, KeyOf(all[k])) && |counts| <= k
    ensures Counted(all, k, counts, KeyOf(all[k]), Rank(all, k, KeyOf(all[k])))
  {
    AllPresent(all, k, k, KeyOf(all[k]), m, base);
  }

  lemma NothingBuilt(ds: seq<Desc>, m: Slots, off: nat, mode: Mode)
    requires ds == []
    ensures forall ts :: Builds(ds, m, off, mode, ts) ==> ts == []
    ensures Visited(ds, m, off) == map[]
  {}

  /** What the definitions say about the list from k on, by its first group. */
  lemma GroupParts(all: seq<Desc>, k: nat, m: Slots, off: nat)
    requires k < |all| && !all[k].More? && Sized(all[k..], m, off)
    ensures if k + 1 < |all| && all[k + 1].More? then
              var n := all[k + 1].length;
              SizedRepeat(all[k], m, off, n) && Sized(all[k + 2..], m, SlotAt(off, Vsize(all[k]), n))
              && Visited(all[k..], m, off) == Plus(VisitedRepeat(all[k], m, off, n), Visited(all[k + 2..], m, SlotAt(off, Vsize(all[k]), n)))
            else
              (off in m ==> SizedOne(all[k], m, off)) && Sized(all[k + 1..], m, off + Vsize(all[k]))
              && Visited(all[k..], m, off) == Plus(if off in m then VisitedOne(all[k], m, off) else map[], Visited(all[k + 1..], m, off + Vsize(all[k])))
  {
    hide SizedOne, SizedRepeat, VisitedOne, VisitedRepeat;
    var ds := all[k..];
    assert ds[0] == all[k] && ds[1..] == all[k + 1..];
    if k + 1 < |all| { assert ds[1] == all[k + 1] && ds[2..] == all[k + 2..]; }
  }

  /** Two parts of a list, the second of which is only parsed if nothing is spoilt. */
  lemma ParseBoth(ds: seq<Desc>, a: seq<Element>, b: seq<Element>, slots: Slots, counts: Counts, base: nat, data: Data,
                  mode: Mode, m: Slots)
    ensures var r := ParseList(ds, a, slots, counts, base, data, mode);
            var q := ParseList(ds, a + b, slots, counts, base, data, mode);
            (Spoiled(r, m) ==> Spoiled(q, m))
            && (r.Parsed? ==> q == ParseList(ds, b, r.slots, r.counts, base, data, mode))
  {
    hide ParseList, Stray;
    var r := ParseList(ds, a, slots, counts, base, data, mode);
    ParseJoin(ds, a, b, slots, counts, base, data, mode);
    if r.Parsed? && Stray(r.slots, m) { StrayStays(ds, b, r.slots, r.counts, base, data, mode, m); }
  }

  /** The order from k on, by its first group. */
  lemma OrderedStep(all: seq<Desc>, k: nat, k': nat, m: Slots, base: nat)
    requires WellFormed(all) && k < |all| && !all[k].More?
    requires k' == (if k + 1 < |all| && all[k + 1].More? then k + 2 else k + 1)
    ensures OrderedFrom(all, k, m, base) <==> Leading(all, k, m, base) && OrderedAt(all, all[k], k, m, base) && OrderedFrom(all, k', m, base)
    ensures LeadingTo(all, k, m, base) && Leading(all, k, m, base) ==> LeadingTo(all, k', m, base)
  {
    hide WellFormed;
    if k' == k + 2 { MoreInOrder(all, k + 1, m, base); }
    hide Leading, OrderedAt;
  }

  lemma MoreInOrder(all: seq<Desc>, k: nat, m: Slots, base: nat)
    requires k < |all| && all[k].More?
    ensures Leading(all, k, m, base) && OrderedAt(all, all[k], k, m, base)
  {
    hide Offset, OrderedRepeat, OrderedOne;
  }

  lemma AbsentLeads(all: seq<Desc>, k: nat, m: Slots, base: nat)
    requires k < |all| && base + Offset(all, k) !in m
    ensures Leading(all, k, m, base) && OrderedAt(all, all[k], k, m, base)
  {
    hide Offset;
  }

  lemma NothingRepeated(d: Desc, m: Slots, off: nat, n: nat, mode: Mode)
    requires off !in m
    ensures BuildRepeat(d, m, off, n, mode) == Built([]) && VisitedRepeat(d, m, off, n) == map[]
            && OrderedRepeat(d, m, off, n)
  {}

  lemma OrderedGroup(all: seq<Desc>, k: nat, m: Slots, base: nat)
    requires k + 1 < |all| && !all[k].More? && all[k + 1].More?
    ensures OrderedAt(all, all[k], k, m, base) <==> OrderedRepeat(all[k], m, base + Offset(all, k), all[k + 1].length)
  {
    hide Offset, OrderedRepeat, OrderedOne;
  }

  lemma OrderedSingle(all: seq<Desc>, k: nat, m: Slots, base: nat)
    requires k < |all| && !all[k].More? && !(k + 1 < |all| && all[k + 1].More?) && base + Offset(all, k) in m
    ensures OrderedAt(all, all[k], k, m, base) <==> OrderedOne(all[k], m, base + Offset(all, k))
  {
    hide Offset, OrderedRepeat, OrderedOne;
  }

  /** The elements of a group whose descriptor is present before its time. */
  lemma GroupMisplaced(all: seq<Desc>, k: nat, m: Slots, base: nat, off: nat, a: seq<Tlv>, pos: nat, slots: Slots,
                       counts: Counts, data: Data, mode: Mode)
    requires WellFormed(all) && k + 1 < |all| && !all[k].More? && all[k + 1].More? && all[k + 1].length > 0
    requires off == base + Offset(all, k) && off in m && !Leading(all, k, m, base)
    requires BuildRepeat(all[k], m, off, all[k + 1].length, mode) == Built(a)
             && SizedRepeat(all[k], m, off, all[k + 1].length)
    requires Sent(a, pos, data, mode) && CountsAre(all, k, counts, m, base) && LeadingTo(all, k, m, base)
    ensures Spoiled(ParseList(all, Placed(a, pos), slots, counts, base, data, mode), m)
  {
    hide WellFormed, BuildOne, BuildRepeat, SizedOne, SizedRepeat, VisitedOne, VisitedRepeat, Lies, Sent, Encodable,
         Offset, ValueLength, Payload, Placed, CountsAre, LeadingTo, Leading, ParseOne, ParseList, Spoiled;
    var t, rest := RepeatParts(all[k], m, off, all[k + 1].length, a, mode);
    var e, next := ConsParts(t, rest, pos, data, mode);
    ParseFirst(all, e, Placed(rest, next), slots, counts, base, data, mode, m);
    Misplaced(all, k, e, slots, counts, base, data, mode, m);
  }

  /** A repeated descriptor, then the rest. */
  lemma {:induction false} ParseGroup(all: seq<Desc>, k: nat, m: Slots, base: nat, off: nat, a: seq<Tlv>, b: seq<Tlv>,
                                      pos: nat, next: nat,
                                      slots: Slots, counts: Counts, data: Data, mode: Mode)
    requires WellFormed(all) && k + 1 < |all| && !all[k].More? && all[k + 1].More?
    requires off == base + Offset(all, k)
    requires BuildRepeat(all[k], m, off, all[k + 1].length, mode) == Built(a) && Sized(all[k..], m, off)
             && Builds(all[k + 2..], m, SlotAt(off, Vsize(all[k]), all[k + 1].length), mode, b)
    requires Sent(a, pos, data, mode) && Sent(b, next, data, mode)
    requires Vacant(slots, off, base + Extent(all)) && CountsAre(all, k, counts, m, base) && LeadingTo(all, k, m, base)
    ensures Verdict(ParseList(all, Placed(a, pos) + Placed(b, next), slots, counts, base, data, mode),
                    OrderedFrom(all, k, m, base), Plus(slots, Visited(all[k..], m, off)), m)
    decreases all, 2, 2 * (|all| - k)
  {
    hide Plus, WellFormed, BuildOne, BuildRepeat, SizedOne, SizedRepeat, VisitedOne, VisitedRepeat, Sent, Offset,
         DescOk, Placed, CountsAre, Counted, Vacant, Length, ParseOne, ParseList, Builds, Sized, Visited, Within,
         Filled, SlotAt, OrderedFrom, OrderedAt, OrderedRepeat, Leading, LeadingTo, Spoiled, Rank;
    var d, n := all[k], all[k + 1].length;
    var key := KeyOf(d);
    Entry(all, k); Entry(all, k + 1);
    GroupParts(all, k, m, off);
    GroupOffset(all, k, base);
    OffsetMono(all, k + 2, |all|);
    OrderedStep(all, k, k + 2, m, base);
    OrderedGroup(all, k, m, base);
    ParseBoth(all, Placed(a, pos), Placed(b, next), slots, counts, base, data, mode, m);
    if off in m && !Leading(all, k, m, base) {
      GroupMisplaced(all, k, m, base, off, a, pos, slots, counts, data, mode);
    } else {
      var end, c := SlotAt(off, Vsize(d), n), CountOf(counts, key);
      var v, w := VisitedRepeat(d, m, off, n), Visited(all[k + 2..], m, end);
      ParseGroupFirst(all, k, m, base, off, a, pos, slots, counts, data, mode);
      if OrderedRepeat(d, m, off, n) {
        VisitedRepeatWithin(d, m, off, n);
        VacantAfter(slots, v, off, end - off, base + Extent(all));
        if k + 2 < |all| { Entry(all, k + 2); }
        CountGroup(all, k, counts, m, base, c, a != []);
        ParseBuilt(all, k + 2, m, base, end, b, next, Plus(slots, v), if a == [] then counts else counts[key := c],
                   data, mode);
        PlusAssoc(slots, v, w);
      }
    }
  }

  /** The elements of a group, which is not present or present in order. */
  lemma ParseGroupFirst(all: seq<Desc>, k: nat, m: Slots, base: nat, off: nat, a: seq<Tlv>, pos: nat, slots: Slots,
                        counts: Counts, data: Data, mode: Mode)
    requires WellFormed(all) && k + 1 < |all| && !all[k].More? && all[k + 1].More? && off == base + Offset(all, k)
    requires BuildRepeat(all[k], m, off, all[k + 1].length, mode) == Built(a)
             && SizedRepeat(all[k], m, off, all[k + 1].length)
    requires Sent(a, pos, data, mode) && CountsAre(all, k, counts, m, base) && (off in m ==> Leading(all, k, m, base))
    requires Vacant(slots, off, base + Extent(all))
    ensures Leading(all, k, m, base)
    ensures var d, n := all[k], all[k + 1].length;
            var r := ParseList(all, Placed(a, pos), slots, counts, base, data, mode);
            if OrderedRepeat(d, m, off, n) then
              r == Parsed(Plus(slots, VisitedRepeat(d, m, off, n)), if a == [] then counts else counts[KeyOf(d) := CountOf(counts, KeyOf(d))])
            else Spoiled(r, m)
    decreases all[k], 1, all[k + 1].length + 1
  {
    hide Plus, WellFormed, BuildOne, BuildRepeat, SizedOne, SizedRepeat, VisitedOne, VisitedRepeat, Sent, Offset,
         DescOk, Placed, CountsAre, Counted, CountOf, Vacant, ParseOne, ParseList, Filled, SlotAt, OrderedRepeat,
         Leading, Spoiled, Rank;
    var d, n := all[k], all[k + 1].length;
    Entry(all, k + 1);
    if off !in m {
      AbsentLeads(all, k, m, base);
      NothingRepeated(d, m, off, n, mode);
      NothingPlaced(pos);
      ParseNone(all, slots, counts, base, data, mode);
      PlusNone(slots);
    } else {
      GroupOffset(all, k, base);
      OffsetMono(all, k + 2, |all|);
      VacantPart(slots, off, SlotAt(off, Vsize(d), n), base + Extent(all));
      NoneFilled(slots, off, Vsize(d));
      CountIsRank(all, k, counts, m, base);
      ParseRepeat(all, k, d, n, off, m, base, 0, n, off, a, pos, slots, counts, data, mode, Rank(all, k, KeyOf(d)));
    }
  }

  lemma VacantPart(slots: Slots, from: nat, to: nat, to': nat)
    requires Vacant(slots, from, to') && to <= to'
    ensures Vacant(slots, from, to)
  {}

  lemma VacantLater(slots: Slots, from: nat, from': nat, to: nat)
    requires Vacant(slots, from, to) && from <= from'
    ensures Vacant(slots, from', to)
  {}

  lemma NoneFilled(slots: Slots, start: nat, v: nat)
    ensures Filled(slots, start, v, 0) && SlotAt(start, v, 0) == start
  {}

  /** A descriptor that is not repeated, then the rest. */
  lemma {:induction false} ParseSlot(all: seq<Desc>, k: nat, m: Slots, base: nat, off: nat, a: seq<Tlv>, b: seq<Tlv>,
                                     pos: nat, next: nat,
                                     slots: Slots, counts: Counts, data: Data, mode: Mode)
    requires WellFormed(all) && k < |all| && !all[k].More? && !(k + 1 < |all| && all[k + 1].More?)
    requires off == base + Offset(all, k)
    requires (if off in m then BuildOne(all[k], m, off, mode) else Built([])) == Built(a) && Sized(all[k..], m, off)
             && Builds(all[k + 1..], m, off + Vsize(all[k]), mode, b)
    requires Sent(a, pos, data, mode) && Sent(b, next, data, mode)
    requires Vacant(slots, off, base + Extent(all)) && CountsAre(all, k, counts, m, base) && LeadingTo(all, k, m, base)
    ensures Verdict(ParseList(all, Placed(a, pos) + Placed(b, next), slots, counts, base, data, mode),
                    OrderedFrom(all, k, m, base), Plus(slots, Visited(all[k..], m, off)), m)
    decreases all, 2, 2 * (|all| - k)
  {
    hide Plus, WellFormed, BuildOne, BuildRepeat, SizedOne, SizedRepeat, VisitedOne, VisitedRepeat, Sent, Offset,
         DescOk, Placed, CountsAre, CountOf, Vacant, Length, ParseOne, ParseList, Builds, Sized, Visited, Within,
         OrderedFrom, OrderedAt, OrderedOne, Leading, LeadingTo, Spoiled;
    var d := all[k];
    Entry(all, k);
    GroupParts(all, k, m, off);
    NextOffset(all, k);
    OffsetMono(all, k + 1, |all|);
    OrderedStep(all, k, k + 1, m, base);
    CountOne(all, k, counts, m, base);
    ParseBoth(all, Placed(a, pos), Placed(b, next), slots, counts, base, data, mode, m);
    var w := Visited(all[k + 1..], m, off + Vsize(d));
    if off in m {
      VacantPart(slots, off, off + Vsize(d), base + Extent(all));
      ParseSingle(all, k, m, base, off, a, pos, slots, counts, data, mode);
      OrderedSingle(all, k, m, base);
      if Leading(all, k, m, base) && OrderedOne(d, m, off) {
        var v := VisitedOne(d, m, off);
        VisitedOneWithin(d, m, off);
        VacantAfter(slots, v, off, Vsize(d), base + Extent(all));
        ParseBuilt(all, k + 1, m, base, off + Vsize(d), b, next, Plus(slots, v),
                   counts[KeyOf(d) := CountOf(counts, KeyOf(d)) + 1], data, mode);
        PlusAssoc(slots, v, w);
      }
    } else {
      NothingPlaced(pos);
      ParseNone(all, slots, counts, base, data, mode);
      VacantLater(slots, off, off + Vsize(d), base + Extent(all));
      AbsentLeads(all, k, m, base);
      ParseBuilt(all, k + 1, m, base, off + Vsize(d), b, next, slots, counts, data, mode);
      PlusNone(w);
    }
  }

  /** All the elements from descriptor k on. */
  lemma {:induction false} ParseBuilt(all: seq<Desc>, k: nat, m: Slots, base: nat, off: nat, ts: seq<Tlv>, pos: nat,
                                      slots: Slots, counts: Counts, data: Data, mode: Mode)
    requires WellFormed(all) && k <= |all| && (k < |all| ==> !all[k].More?)
    requires off == base + Offset(all, k) && Builds(all[k..], m, off, mode, ts) && Sized(all[k..], m, off)
    requires Sent(ts, pos, data, mode)
    requires Vacant(slots, off, base + Extent(all)) && CountsAre(all, k, counts, m, base) && LeadingTo(all, k, m, base)
    ensures Verdict(ParseList(all, Placed(ts, pos), slots, counts, base, data, mode),
                    OrderedFrom(all, k, m, base), Plus(slots, Visited(all[k..], m, off)), m)
    decreases all, 2, 2 * (|all| - k) + 1
  {
    hide Plus, WellFormed, BuildOne, BuildRepeat, SizedOne, SizedRepeat, VisitedOne, VisitedRepeat, Sent, Offset,
         DescOk, Placed, CountsAre, Vacant, Length, ParseOne, ParseList, Builds, Sized, Visited, OrderedAt, Leading,
         LeadingTo, Spoiled;
    if k == |all| {
      NothingBuilt(all[k..], m, off, mode);
      NothingPlaced(pos);
      ParseNone(all, slots, counts, base, data, mode);
      PlusNone(slots);
    } else {
      hide OrderedFrom, Verdict;
      var ds, d := all[k..], all[k];
      Entry(all, k);
      assert ds[0] == d;
      var a, b := ListParts(ds, m, off, ts, mode);
      JoinParts(a, b, pos, data, mode);
      var next := pos + Length(a);
      if k + 1 < |all| && all[k + 1].More? {
        assert ds[1] == all[k + 1] && ds[2..] == all[k + 2..];
        ParseGroup(all, k, m, base, off, a, b, pos, next, slots, counts, data, mode);
      } else {
        assert ds[1..] == all[k + 1..];
        if |ds| > 1 { assert ds[1] == all[k + 1]; }
        ParseSlot(all, k, m, base, off, a, b, pos, next, slots, counts, data, mode);
      }
    }
  }

  /** Building a message and parsing it into a zeroed one restores every slot that building
      visited, with its value, and no other, exactly when no descriptor is present without those
      before it that share its type and instance. */
  lemma MessageRoundTrip(ds: seq<Desc>, m: Slots, ts: seq<Tlv>, data: Data, pos: nat, mode: Mode)
    requires WellFormed(ds) && BuildList(ds, m, 0, mode) == Built(ts) && ts != [] && Sized(ds, m, 0)
    requires AllEncodable(ts, mode) && Lies(data, pos, Render(ts))
    ensures Fits(data, pos, pos + |Render(ts)|, mode)
    ensures var r := ParseList(ds, Elements(data, pos, pos + |Render(ts)|, mode), map[], map[], 0, data, mode);
            (r.Parsed? && r.slots == Visited(ds, m, 0)) <==> Ordered(ds, m, 0)
  {
    hide Plus, WellFormed, BuildList, Sized, AllEncodable, Lies, Render, Elements, Fits, ParseList, Visited, Offset,
         Ordered, OrderedFrom, LeadingTo, CountsAre;
    assert Builds(ds, m, 0, mode, ts);
    RenderLength(ts);
    ParseRendered(data, pos, ts, mode);
    assert ds[0..] == ds;
    NoOffset(ds);
    NoneBefore(ds, m, 0);
    if ds != [] { Entry(ds, 0); }
    ParseBuilt(ds, 0, m, 0, 0, ts, pos, map[], map[], data, mode);
    PlusNone(Visited(ds, m, 0));
    VisitedPart(ds, m, 0);
  }

  const PAIR: seq<Desc> := [LeafDesc(Uint8, 1, 1, 0, 9), LeafDesc(Uint8, 1, 1, 0, 9)]

  /** Of two descriptors alike, the second alone is present: it comes back as the first. */
  lemma SecondBecomesFirst(data: Data, pos: nat)
    requires data(pos) == 7
    ensures var m, e := map[9 := Num(7)], Element(T1L1, 1, 1, 0, pos);
            WellFormed(PAIR) && Sized(PAIR, m, 0) && !Ordered(PAIR, m, 0)
            && BuildList(PAIR, m, 0, T1L1) == Built([Tlv(T1L1, 1, 0, Leaf([7]))])
            && ParseList(PAIR, [e], map[], map[], 0, data, T1L1) == Parsed(map[0 := Num(7)], map[(1, 0) := 1])
  {
    hide WellFormed, Sized, Ordered, BuildList, ParseList;
    PairOk();
    PairBuilt();
    PairParsed(data, pos);
  }

  lemma PairOk()
    ensures var m := map[9 := Num(7)]; WellFormed(PAIR) && Sized(PAIR, m, 0) && !Ordered(PAIR, m, 0)
  {
    assert PAIR[1..][1..] == [] && Offset(PAIR, 0) == 0 && Offset(PAIR, 1) == 9;
    assert SameKey(PAIR, 0, 1) && !Leading(PAIR, 1, map[9 := Num(7)], 0);
    assert EntryOk(PAIR, 0) && EntryOk(PAIR, 1) && DescOk(PAIR[0]);
  }

  lemma PairBuilt()
    ensures BuildList(PAIR, map[9 := Num(7)], 0, T1L1) == Built([Tlv(T1L1, 1, 0, Leaf([7]))])
  {
    var m, d := map[9 := Num(7)], PAIR[0];
    BigEndianBytes(7);
    assert BuildOne(d, m, 9, T1L1) == Built([Tlv(T1L1, 1, 0, Leaf([7]))]);
    hide BuildOne;
    assert PAIR[1..] == [d] && [d][1..] == [];
    assert BuildList([], m, 18, T1L1) == Built([]);
    assert BuildList([d], m, 9, T1L1) == BuildOne(d, m, 9, T1L1);
  }

  lemma PairParsed(data: Data, pos: nat)
    requires data(pos) == 7
    ensures ParseList(PAIR, [Element(T1L1, 1, 1, 0, pos)], map[], map[], 0, data, T1L1) == Parsed(map[0 := Num(7)], map[(1, 0) := 1])
  {
    var e := Element(T1L1, 1, 1, 0, pos);
    assert FindDesc(PAIR, 1, 0, 0) == Found(0, 0);
    var c: Counts := map[];
    assert c[(1, 0) := 0][(1, 0) := 1] == map[(1, 0) := 1];
    assert FindPlace(PAIR, 1, 0, map[], map[], 0) == Place(0, 0, map[(1, 0) := 1]);
    assert StoreOne(PAIR[0], e, map[], map[(1, 0) := 1], 0, data, T1L1) == Parsed(map[0 := Num(7)], map[(1, 0) := 1]);
    hide FindPlace, StoreOne;
    ParsePlaced(PAIR, e, map[], map[], 0, data, T1L1, 0, 0, map[(1, 0) := 1]);
    ParseCons(PAIR, e, [], map[], map[], 0, data, T1L1);
    assert [e] + [] == [e];
  }

  /** If all types and instances on every level are distinct, everything is in order. */
  ghost predicate AllDistinct(ds: seq<Desc>) {
    (forall i, j :: 0 <= i < j < |ds| ==> !SameKey(ds, i, j)) && forall i :: 0 <= i < |ds| ==> ds[i].CompoundDesc? ==>
      AllDistinct(ds[i].children)
  }

  lemma {:induction false} DistinctOrdered(ds: seq<Desc>, m: Slots, base: nat)
    requires AllDistinct(ds)
    ensures Ordered(ds, m, base)
    decreases ds, 2
  {
    hide Offset;
    forall k | 0 <= k < |ds| ensures Leading(ds, k, m, base) && OrderedAt(ds, ds[k], k, m, base) {
      if !ds[k].More? {
        if k + 1 < |ds| && ds[k + 1].More? {
          DistinctRepeat(ds[k], m, base + Offset(ds, k), ds[k + 1].length);
        } else {
          DistinctOne(ds[k], m, base + Offset(ds, k));
        }
      }
    }
  }

  lemma {:induction false} DistinctOne(d: Desc, m: Slots, off: nat)
    requires d.CompoundDesc? ==> AllDistinct(d.children)
    ensures OrderedOne(d, m, off)
    decreases d, 0
  {
    if d.CompoundDesc? { DistinctOrdered(d.children, m, off + PRESENCE); }
  }

  lemma {:induction false} DistinctRepeat(d: Desc, m: Slots, off: nat, n: nat)
    requires d.CompoundDesc? ==> AllDistinct(d.children)
    ensures OrderedRepeat(d, m, off, n)
    decreases d, 1, n
  {
    hide OrderedOne;
    DistinctOne(d, m, off);
    if n > 0 && off in m { DistinctRepeat(d, m, off + Vsize(d), n - 1); }
  }

  // ---------------------------------------------------------------- which slots are visited

  /** The slots of a are slots of m, with the same values. */
  ghost predicate Part(a: Slots, m: Slots) {
    forall o :: o in a ==> o in m && a[o] == m[o]
  }

  lemma PartPlus(a: Slots, b: Slots, m: Slots)
    requires Part(a, m) && Part(b, m)
    ensures Part(Plus(a, b), m)
  {}

  /** Nothing is restored that was not in the message. */
  lemma {:induction false} VisitedPart(ds: seq<Desc>, m: Slots, off: nat)
    ensures Part(Visited(ds, m, off), m)
    decreases ds, 2, 0
  {
    hide Plus, SlotAt;
    if ds == [] {
    } else if |ds| > 1 && ds[1].More? {
      VisitedRepeatPart(ds[0], m, off, ds[1].length);
      VisitedPart(ds[2..], m, SlotAt(off, Vsize(ds[0]), ds[1].length));
      PartPlus(VisitedRepeat(ds[0], m, off, ds[1].length),
               Visited(ds[2..], m, SlotAt(off, Vsize(ds[0]), ds[1].length)), m);
    } else {
      if off in m { VisitedOnePart(ds[0], m, off); }
      VisitedPart(ds[1..], m, off + Vsize(ds[0]));
      PartPlus(if off in m then VisitedOne(ds[0], m, off) else map[], Visited(ds[1..], m, off + Vsize(ds[0])), m);
    }
  }

  lemma {:induction false} VisitedRepeatPart(d: Desc, m: Slots, off: nat, n: nat)
    ensures Part(VisitedRepeat(d, m, off, n), m)
    decreases d, 1, n
  {
    hide Plus;
    if n > 0 && off in m {
      VisitedOnePart(d, m, off);
      VisitedRepeatPart(d, m, off + Vsize(d), n - 1);
      PartPlus(VisitedOne(d, m, off), VisitedRepeat(d, m, off + Vsize(d), n - 1), m);
    }
  }

  lemma {:induction false} VisitedOnePart(d: Desc, m: Slots, off: nat)
    requires off in m
    ensures Part(VisitedOne(d, m, off), m) && off in VisitedOne(d, m, off)
    ensures d.CompoundDesc? ==> forall o :: o in Visited(d.children, m, off + PRESENCE) ==> o in VisitedOne(d, m, off)
    decreases d, 0, 0
  {
    if d.CompoundDesc? { VisitedPart(d.children, m, off + PRESENCE); }
  }

  lemma InPlus(o: nat, a: Slots, b: Slots)
    ensures o in Plus(a, b) <==> o in a || o in b
  {}

  /** Every present slot of a descriptor is visited, as far as those before it in a repetition
      are present: the slots of VisitedOne, and so, for a compound, those of its children. */
  lemma {:induction false} PresentVisited(all: seq<Desc>, g: nat, k: nat, j: nat, m: Slots, base: nat, o: nat)
    requires WellFormed(all) && g <= k < |all| && !all[g].More? && !all[k].More?
    requires var off, repeated := base + Offset(all, k), k + 1 < |all| && all[k + 1].More?;
             (if repeated then j < all[k + 1].length else j == 0)
             && (forall i :: 0 <= i <= j ==> SlotAt(off, Vsize(all[k]), i) in m)
             && o in VisitedOne(all[k], m, SlotAt(off, Vsize(all[k]), j))
    ensures o in Visited(all[g..], m, base + Offset(all, g))
    decreases k - g
  {
    hide WellFormed, Offset, VisitedOne, VisitedRepeat, Plus, SlotAt;
    var ds, d, off := all[g..], all[g], base + Offset(all, g);
    Entry(all, g);
    assert ds[0] == d;
    if g + 1 < |all| && all[g + 1].More? {
      var n := all[g + 1].length;
      assert ds[1] == all[g + 1] && ds[2..] == all[g + 2..];
      Entry(all, g + 1);
      GroupOffset(all, g, base);
      InPlus(o, VisitedRepeat(d, m, off, n), Visited(ds[2..], m, SlotAt(off, Vsize(d), n)));
      if g == k {
        RepeatVisited(d, m, off, n, j, 0, o);
        SlotZero(off, Vsize(d));
      } else {
        if k == g + 1 { assert false; }
        Entry(all, g + 2);
        PresentVisited(all, g + 2, k, j, m, base, o);
      }
    } else {
      if g + 1 < |all| { assert ds[1] == all[g + 1]; }
      assert ds[1..] == all[g + 1..];
      NextOffset(all, g);
      SlotZero(off, Vsize(d));
      InPlus(o, if off in m then VisitedOne(d, m, off) else map[], Visited(ds[1..], m, off + Vsize(d)));
      if g == k {
        assert SlotAt(off, Vsize(d), 0) in m;
      } else {
        Entry(all, g + 1);
        PresentVisited(all, g + 1, k, j, m, base, o);
      }
    }
  }

  lemma SlotZero(start: nat, v: nat)
    ensures SlotAt(start, v, 0) == start
  {}

  lemma {:induction false} RepeatVisited(d: Desc, m: Slots, start: nat, n: nat, j: nat, i: nat, o: nat)
    requires i <= j < n && (forall x :: 0 <= x <= j ==> SlotAt(start, Vsize(d), x) in m)
             && o in VisitedOne(d, m, SlotAt(start, Vsize(d), j))
    ensures o in VisitedRepeat(d, m, SlotAt(start, Vsize(d), i), n - i)
    decreases j - i
  {
    hide VisitedOne, Plus, SlotAt;
    var off := SlotAt(start, Vsize(d), i);
    NextSlot(start, Vsize(d), i, n);
    assert off in m;
    InPlus(o, VisitedOne(d, m, off), VisitedRepeat(d, m, off + Vsize(d), n - i - 1));
    if i < j { RepeatVisited(d, m, start, n, j, i + 1, o); }
  }
}
