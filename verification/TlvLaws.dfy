/** What the codec and the message parser do with every input: the bytes of a header and of a
    value, and the fate of every element of a packet. */
module TlvLaws {
  import opened Arith
  import opened Tlv
  import opened TlvMsg
  import P = TlvMsgProof

  // ---------------------------------------------------------------- the bytes on the wire

  /** The header of an element, byte by byte: type, length and instance, high bytes first, in the
      widths of the mode. */
  lemma HeaderLayout(mode: Mode, typ: nat, length: nat, instance: nat)
    ensures var h := Header(mode, typ, length, instance);
            match mode
            case T1L1 => h == [typ % 256, length % 256]
            case T1L2 => h == [typ % 256, (length / 256) % 256, length % 256]
            case T1L2I1 => h == [typ % 256, (length / 256) % 256, length % 256, instance % 256]
            case T2L2 => h == [(typ / 256) % 256, typ % 256, (length / 256) % 256, length % 256]
            case T1 => h == [typ % 256]
  {}

  /** An element is its header and its value; a block is its elements one behind the other. */
  lemma ElementLayout(t: Tlv, ts: seq<Tlv>)
    ensures Render([t] + ts) == Header(t.mode, t.typ, |Payload(t)|, t.instance) + Payload(t) + Render(ts)
    ensures Payload(t) == if t.value.Leaf? then t.value.bytes else Render(t.value.elements)
    ensures Render([]) == []
  {
    hide Header;
    PayloadLength(t);
    assert ([t] + ts)[0] == t && ([t] + ts)[1..] == ts;
  }

  /** What is read from the bytes at a position. */
  lemma ElementRead(data: Data, pos: nat, mode: Mode)
    ensures var e, a, b, c, d := GetElement(data, pos, mode), data(pos), data(pos + 1), data(pos + 2), data(pos + 3);
            e.mode == mode
            && e.typ == (if mode == T2L2 then a * 256 + b else a)
            && e.length == (if mode == T1L1 then b else if mode == T2L2 then c * 256 + d else if mode == T1 then 0 else b * 256 + c)
            && e.instance == (if mode == T1L2I1 then d % 16 else 0)
            && e.value == pos + (if mode == T1 then 1 else if mode == T1L1 then 2 else if mode == T1L2 then 3 else 4)
  {}

  /** The elements of a block lie one behind the other, and all but the last end before the block
      does. */
  lemma {:induction false} ElementsInOrder(data: Data, pos: nat, end: nat, mode: Mode, i: nat)
    requires i < |Elements(data, pos, end, mode)|
    ensures var es := Elements(data, pos, end, mode);
            es[i] == GetElement(data, if i == 0 then pos else es[i - 1].value + es[i - 1].length, mode)
            && (i + 1 < |es| <==> es[i].value + es[i].length < end)
    decreases i
  {
    hide GetElement;
    if i > 0 {
      var e := GetElement(data, pos, mode);
      assert Elements(data, pos, end, mode)[1..] == Elements(data, End(e), end, mode);
      ElementsInOrder(data, End(e), end, mode, i - 1);
    }
  }

  /** Of a block that is well formed, a part from its start is well formed exactly if it is cut
      behind one of its elements. */
  lemma {:induction false} CutBlock(data: Data, pos: nat, end: nat, mode: Mode, cut: nat)
    requires Fits(data, pos, end, mode) && pos < cut <= end
    ensures var es := Elements(data, pos, end, mode);
            Fits(data, pos, cut, mode) <==> exists i :: 0 <= i < |es| && es[i].value + es[i].length == cut
    decreases end - pos
  {
    hide GetElement;
    var e, es := GetElement(data, pos, mode), Elements(data, pos, end, mode);
    if End(e) < end {
      var rest := Elements(data, End(e), end, mode);
      assert es == [e] + rest && es[0] == e;
      assert forall i :: 0 <= i < |rest| ==> rest[i] == es[i + 1];
      assert rest[|rest| - 1] == es[|es| - 1];
      RestEnds(data, End(e), end, mode);
      if End(e) < cut {
        CutBlock(data, End(e), end, mode, cut);
        CutStep(data, pos, cut, mode);
      }
    } else {
      assert es == [e] && es[0] == e;
    }
    if cut <= End(e) { assert Elements(data, pos, cut, mode) == [e]; }
  }

  lemma CutStep(data: Data, pos: nat, cut: nat, mode: Mode)
    requires End(GetElement(data, pos, mode)) < cut
    ensures Fits(data, pos, cut, mode) <==> Fits(data, End(GetElement(data, pos, mode)), cut, mode)
  {
    hide GetElement;
    var rest := Elements(data, End(GetElement(data, pos, mode)), cut, mode);
    assert Elements(data, pos, cut, mode) == [GetElement(data, pos, mode)] + rest;
  }

  /** Every element ends behind the place where the elements begin. */
  lemma {:induction false} RestEnds(data: Data, pos: nat, end: nat, mode: Mode)
    ensures forall i :: 0 <= i < |Elements(data, pos, end, mode)| ==> End(Elements(data, pos, end, mode)[i]) > pos
    decreases end - pos
  {
    hide GetElement;
    var e := GetElement(data, pos, mode);
    HeaderTaken(data, pos, mode);
    if End(e) < end { RestEnds(data, End(e), end, mode); }
  }

  lemma HeaderTaken(data: Data, pos: nat, mode: Mode)
    ensures End(GetElement(data, pos, mode)) > pos
  {}

  /** The value of a field, byte by byte: numbers in network order. */
  lemma LeafLayout(d: Desc, f: Field)
    requires d.LeafDesc?
    ensures var b, v := LeafBytes(d, f), Number(f);
            (d.ctype == Uint8 ==> b == [v % 256])
            && (d.ctype == Uint16 ==> b == [(v / 256) % 256, v % 256])
            && (d.ctype == Uint24 ==> b == [(v / 256 / 256) % 256, (v / 256) % 256, v % 256])
            && (d.ctype == Uint32 ==> b == [(v / 256 / 256 / 256) % 256, (v / 256 / 256) % 256, (v / 256) % 256, v % 256])
            && (d.ctype == VarStr && f.Octets? ==> b == f.bytes)
            && (d.ctype == FixedStr && f.Octets? && |f.bytes| == d.length ==> b == f.bytes)
            && (d.ctype == Empty ==> b == [])
  {
    P.FourEnds(Number(f));
    hide BigEndian;
    if f.Octets? && |f.bytes| == d.length { assert f.bytes[..d.length] == f.bytes; }
  }

  // ---------------------------------------------------------------- what is built

  /** A present field and its slot. */
  datatype Shown = Shown(d: Desc, off: nat)

  /** The present fields of a level in order, of a repetition those before the first absent one. */
  function Level(ds: seq<Desc>, m: Slots, off: nat): seq<Shown>
    decreases |ds|
  {
    if ds == [] then []
    else if |ds| > 1 && ds[1].More? then
      LevelRepeat(ds[0], m, off, ds[1].length) + Level(ds[2..], m, SlotAt(off, Vsize(ds[0]), ds[1].length))
    else (if off in m then [Shown(ds[0], off)] else []) + Level(ds[1..], m, off + Vsize(ds[0]))
  }

  function LevelRepeat(d: Desc, m: Slots, off: nat, n: nat): seq<Shown>
    decreases n
  {
    if n == 0 || off !in m then [] else [Shown(d, off)] + LevelRepeat(d, m, off + Vsize(d), n - 1)
  }

  /** An element can be made of the field: a string of variable length must not be empty, and
      neither must the level within a compound, of which everything must be buildable. */
  predicate Buildable(s: Shown, m: Slots, mode: Mode) {
    s.off in m && !s.d.More?
    && (s.d.LeafDesc? && s.d.ctype == VarStr ==> Raw(m[s.off]) != [])
    && (s.d.CompoundDesc? ==>
          Level(s.d.children, m, s.off + PRESENCE) != [] && BuildList(s.d.children, m, s.off + PRESENCE, mode).Built?)
  }

  /** The element of a field. */
  predicate StandsFor(t: Tlv, s: Shown, m: Slots, mode: Mode) {
    s.off in m && t.mode == mode && t.typ == Typ(s.d) && t.instance == Inst(s.d)
    && (s.d.LeafDesc? ==> t.value == Leaf(LeafBytes(s.d, m[s.off])))
    && (s.d.CompoundDesc? ==>
          var r := BuildList(s.d.children, m, s.off + PRESENCE, mode); r.Built? && t.value == Block(r.ts))
  }

  ghost predicate Verdict(r: Built, fields: seq<Shown>, m: Slots, mode: Mode) {
    && (r.Built? <==> forall k :: 0 <= k < |fields| ==> Buildable(fields[k], m, mode))
    && (r.Built? ==> |r.ts| == |fields| && forall k :: 0 <= k < |fields| ==> StandsFor(r.ts[k], fields[k], m, mode))
  }

  /** Building succeeds exactly if every present field is buildable, and then makes one element of
      each, in order. */
  lemma {:induction false} BuildsExactly(ds: seq<Desc>, m: Slots, off: nat, mode: Mode)
    ensures var r, fields := BuildList(ds, m, off, mode), Level(ds, m, off);
            (r.Built? <==> forall k :: 0 <= k < |fields| ==> Buildable(fields[k], m, mode))
            && (r.Built? ==>
                  |r.ts| == |fields| && forall k :: 0 <= k < |fields| ==> StandsFor(r.ts[k], fields[k], m, mode))
  {
    hide BuildList, Level, Buildable, StandsFor;
    BuildsLevel(ds, m, off, mode);
  }

  lemma {:induction false} BuildsLevel(ds: seq<Desc>, m: Slots, off: nat, mode: Mode)
    ensures Verdict(BuildList(ds, m, off, mode), Level(ds, m, off), m, mode)
    decreases ds, 2, 0
  {
    hide BuildOne, BuildRepeat, BuildList, Level, LevelRepeat, Verdict, SlotAt, Join;
    LevelParts(ds, m, off, mode);
    if ds == [] {
      NoVerdict(m, mode);
    } else if |ds| > 1 && ds[1].More? {
      var off' := SlotAt(off, Vsize(ds[0]), ds[1].length);
      BuildsRepeat(ds[0], m, off, ds[1].length, mode);
      BuildsLevel(ds[2..], m, off', mode);
      JoinVerdict(BuildRepeat(ds[0], m, off, ds[1].length, mode), BuildList(ds[2..], m, off', mode),
                  LevelRepeat(ds[0], m, off, ds[1].length), Level(ds[2..], m, off'), m, mode);
    } else {
      var off' := off + Vsize(ds[0]);
      var one := if off in m then BuildOne(ds[0], m, off, mode) else Built([]);
      var shown := if off in m then [Shown(ds[0], off)] else [];
      if off in m { BuildsOne(ds[0], m, off, mode); } else { NoVerdict(m, mode); }
      BuildsLevel(ds[1..], m, off', mode);
      JoinVerdict(one, BuildList(ds[1..], m, off', mode), shown, Level(ds[1..], m, off'), m, mode);
    }
  }

  lemma NoVerdict(m: Slots, mode: Mode)
    ensures Verdict(Built([]), [], m, mode)
  {}

  lemma LevelParts(ds: seq<Desc>, m: Slots, off: nat, mode: Mode)
    ensures ds == [] ==> BuildList(ds, m, off, mode) == Built([]) && Level(ds, m, off) == []
    ensures |ds| > 1 && ds[1].More? ==>
              var off' := SlotAt(off, Vsize(ds[0]), ds[1].length);
              BuildList(ds, m, off, mode)
              == Join(BuildRepeat(ds[0], m, off, ds[1].length, mode), BuildList(ds[2..], m, off', mode))
              && Level(ds, m, off) == LevelRepeat(ds[0], m, off, ds[1].length) + Level(ds[2..], m, off')
    ensures ds != [] && !(|ds| > 1 && ds[1].More?) ==>
              var off' := off + Vsize(ds[0]);
              BuildList(ds, m, off, mode)
              == Join(if off in m then BuildOne(ds[0], m, off, mode) else Built([]), BuildList(ds[1..], m, off', mode))
              && Level(ds, m, off) == (if off in m then [Shown(ds[0], off)] else []) + Level(ds[1..], m, off')
  {
    hide BuildOne, BuildRepeat, LevelRepeat, SlotAt, Join;
  }

  lemma {:induction false} BuildsRepeat(d: Desc, m: Slots, off: nat, n: nat, mode: Mode)
    ensures Verdict(BuildRepeat(d, m, off, n, mode), LevelRepeat(d, m, off, n), m, mode)
    decreases d, 1, n
  {
    hide BuildOne, Buildable, StandsFor, Join;
    if n > 0 && off in m {
      BuildsOne(d, m, off, mode);
      BuildsRepeat(d, m, off + Vsize(d), n - 1, mode);
      JoinVerdict(BuildOne(d, m, off, mode), BuildRepeat(d, m, off + Vsize(d), n - 1, mode),
                  [Shown(d, off)], LevelRepeat(d, m, off + Vsize(d), n - 1), m, mode);
    }
  }

  lemma {:induction false} BuildsOne(d: Desc, m: Slots, off: nat, mode: Mode)
    requires off in m
    ensures Verdict(BuildOne(d, m, off, mode), [Shown(d, off)], m, mode)
    decreases d, 0, 0
  {
    hide LeafBytes, BuildList, Level;
    assert [Shown(d, off)][0] == Shown(d, off);
    if d.CompoundDesc? { BuildsLevel(d.children, m, off + PRESENCE, mode); }
  }

  lemma JoinVerdict(a: Built, b: Built, x: seq<Shown>, y: seq<Shown>, m: Slots, mode: Mode)
    requires Verdict(a, x, m, mode) && Verdict(b, y, m, mode)
    ensures Verdict(Join(a, b), x + y, m, mode)
  {
    hide Buildable, StandsFor;
    var r, z := Join(a, b), x + y;
    assert forall k :: 0 <= k < |x| ==> z[k] == x[k];
    assert forall k :: 0 <= k < |y| ==> z[|x| + k] == y[k];
    if r.Built? {
      forall k | 0 <= k < |z| ensures Buildable(z[k], m, mode) && StandsFor(r.ts[k], z[k], m, mode) {
        if k >= |x| { assert z[k] == y[k - |x|] && r.ts[k] == b.ts[k - |x|]; }
      }
    }
  }

  // ---------------------------------------------------------------- values

  /** A leaf is stored, or refused for its length. */
  lemma LeafOutcome(d: Desc, e: Element, slots: Slots, counts: Counts, off: nat, data: Data, mode: Mode)
    requires d.LeafDesc?
    ensures var n, r, a := e.length, StoreOne(d, e, slots, counts, off, data, mode), e.value;
            var refused := (d.ctype == Uint8 && n != 1) || (d.ctype == Uint16 && !(1 <= n <= 2))
                           || (d.ctype == Uint24 && !(1 <= n <= 3)) || (d.ctype == Uint32 && !(1 <= n <= 4))
                           || (d.ctype == FixedStr && n != d.length) || (d.ctype == Empty && n != 0);
            if refused then r == ParseError
            else r.Parsed? && r.counts == counts && r.slots.Keys == slots.Keys + {off}
                 && (forall o :: o in slots && o != off ==> r.slots[o] == slots[o])
                 && (d.ctype == Uint8 ==> r.slots[off] == Num(data(a)))
                 && (d.ctype == Uint16 ==> r.slots[off] == Num(data(a) * 256 + data(a + 1)))
                 && (d.ctype == Uint24 ==> r.slots[off] == Num((data(a) * 256 + data(a + 1)) * 256 + data(a + 2)))
                 && (d.ctype == Uint32 ==>
                       r.slots[off] == Num(((data(a) * 256 + data(a + 1)) * 256 + data(a + 2)) * 256 + data(a + 3)))
                 && (d.ctype == FixedStr || d.ctype == VarStr ==>
                       r.slots[off].Octets? && |r.slots[off].bytes| == n
                       && forall i :: 0 <= i < n ==> r.slots[off].bytes[i] == data(a + i))
                 && (d.ctype == Empty ==> r.slots[off] == Mark)
  {}

  /** A compound is refused if its block is malformed or one of its elements is refused; otherwise
      it is marked after its elements have been stored behind its flag. */
  lemma CompoundOutcome(d: Desc, e: Element, slots: Slots, counts: Counts, off: nat, data: Data, mode: Mode)
    requires d.CompoundDesc?
    ensures var r, end := StoreOne(d, e, slots, counts, off, data, mode), e.value + e.length;
            var es := Elements(data, e.value, end, mode);
            var q := ParseList(d.children, es, slots, map[], off + 8, data, mode);
            if End(es[|es| - 1]) != end || q == ParseError then r == ParseError
            else r.Parsed? && r.counts == counts && r.slots == q.slots[off := Mark]
  {
    hide Elements, ParseList;
  }

  // ---------------------------------------------------------------- the descriptor of an element

  predicate Matches(d: Desc, typ: nat, inst: nat) { Typ(d) == typ && Inst(d) == inst }

  /** How many of the first k descriptors match. */
  function Before(ds: seq<Desc>, k: nat, typ: nat, inst: nat): nat
    requires k <= |ds|
  {
    if k == 0 then 0 else Before(ds, k - 1, typ, inst) + if Matches(ds[k - 1], typ, inst) then 1 else 0
  }

  /** The search for the match number pos, counted from zero, finds exactly that descriptor, with
      its offset, or nothing if there are not that many. */
  lemma {:induction false} FindExactly(ds: seq<Desc>, i: nat, typ: nat, inst: nat, pos: nat)
    requires i <= |ds| && Before(ds, i, typ, inst) <= pos
    ensures var r := FindFrom(ds, i, P.Offset(ds, i), Before(ds, i, typ, inst), typ, inst, pos);
            if r == NotFound then Before(ds, |ds|, typ, inst) <= pos
            else r.index < |ds| && Matches(ds[r.index], typ, inst) && Before(ds, r.index, typ, inst) == pos
                 && r.offset == P.Offset(ds, r.index)
    decreases |ds| - i
  {
    if i < |ds| && !(Matches(ds[i], typ, inst) && Before(ds, i, typ, inst) == pos) {
      FindExactly(ds, i + 1, typ, inst, pos);
    }
  }

  /** The number of elements of this type and instance that have found a descriptor of their own. */
  function CountOf(counts: Counts, typ: nat,
                   inst: nat): nat { if (typ, inst) in counts then counts[(typ, inst)] else 0 }

  /** The first n repeated slots are present. */
  ghost predicate Present(slots: Slots, off: nat, vsize: nat, n: nat) {
    forall j :: 0 <= j < n ==> SlotAt(off, vsize, j) in slots
  }

  lemma {:induction false} FreeSlotExactly(slots: Slots, off: nat, vsize: nat, n: nat, j: nat)
    requires j <= n && Present(slots, off, vsize, j)
    ensures var r := FreeSlot(slots, off, vsize, n, j);
            r <= n && Present(slots, off, vsize, r) && (r < n ==> SlotAt(off, vsize, r) !in slots)
    decreases n - j
  {
    hide SlotAt;
    if j < n && SlotAt(off, vsize, j) in slots { FreeSlotExactly(slots, off, vsize, n, j + 1); }
  }

  // ---------------------------------------------------------------- every element of a packet

  /** The fate of an element in every state.  It fails for want of a counter exactly if its type
      and instance are new and 128 others have one.  It is skipped if no descriptor is left for
      it, or if all the slots of its descriptor are filled.  Otherwise it goes to the first free
      slot of the descriptor whose number is the count. */
  lemma ElementOutcome(ds: seq<Desc>, e: Element, slots: Slots, counts: Counts, base: nat, data: Data, mode: Mode)
    returns (i: nat, j: nat)
    ensures var r, key := ParseOne(ds, e, slots, counts, base, data, mode), (e.typ, e.instance);
            var c := CountOf(counts, e.typ, e.instance);
            if key !in counts && |counts| == 128 then r == ParseError
            else if Before(ds, |ds|, e.typ, e.instance) <= c then r == Parsed(slots, counts[key := c])
            else
              i < |ds| && Matches(ds[i], e.typ, e.instance) && Before(ds, i, e.typ, e.instance) == c
              && var off, v := base + P.Offset(ds, i), Vsize(ds[i]);
                 if i + 1 < |ds| && ds[i + 1].More? then
                   var n := ds[i + 1].length;
                   j <= n && Present(slots, off, v, j)
                   && (if j == n then r == Parsed(slots, counts[key := c])
                       else SlotAt(off, v, j) !in slots
                            && r == StoreOne(ds[i], e, slots, counts[key := c], SlotAt(off, v, j), data, mode))
                 else r == StoreOne(ds[i], e, slots, counts[key := c + 1], off, data, mode)
  {
    hide StoreOne, FindPlace, Where, Matches, SlotAt, Present, ParseOne;
    var c := CountOf(counts, e.typ, e.instance);
    PlaceIs(ds, e.typ, e.instance, slots, counts, base);
    OneIs(ds, e, slots, counts, base, data, mode);
    i, j := WhereIs(ds, e.typ, e.instance, slots, c, base);
  }

  /** The slot for an element, and whether its descriptor is used up by it. */
  datatype Spot = Skip | At(index: nat, off: nat, more: nat)

  ghost function Where(ds: seq<Desc>, typ: nat, inst: nat, slots: Slots, c: nat, base: nat): Spot {
    var found := FindDesc(ds, typ, inst, c);
    if found == NotFound then Skip
    else if found.index + 1 < |ds| && ds[found.index + 1].More? then
      var off, v, n := base + found.offset, Vsize(ds[found.index]), ds[found.index + 1].length;
      var j := FreeSlot(slots, off, v, n, 0);
      if j == n then Skip else At(found.index, SlotAt(off, v, j), 0)
    else At(found.index, base + found.offset, 1)
  }

  lemma PlaceIs(ds: seq<Desc>, typ: nat, inst: nat, slots: Slots, counts: Counts, base: nat)
    ensures var key, c := (typ, inst), CountOf(counts, typ, inst);
            var spot := Where(ds, typ, inst, slots, c, base);
            FindPlace(ds, typ, inst, slots, counts, base)
            == if key !in counts && |counts| == 128 then TooMany
               else if spot == Skip then Ignored(counts[key := c])
               else Place(spot.index, spot.off, counts[key := c + spot.more])
  {
    hide FindDesc, FreeSlot, SlotAt;
    SameCounts(counts, typ, inst);
  }

  lemma OneIs(ds: seq<Desc>, e: Element, slots: Slots, counts: Counts, base: nat, data: Data, mode: Mode)
    ensures var r, place := ParseOne(ds, e, slots, counts, base, data, mode), FindPlace(ds, e.typ, e.instance, slots,
                                     counts, base);
            r == if place == TooMany then ParseError
                 else if place.Ignored? then Parsed(slots, place.counts)
                 else if place.index >= |ds| then ParseError
                 else StoreOne(ds[place.index], e, slots, place.counts, place.off, data, mode)
  {
    hide FindPlace, StoreOne;
  }

  lemma WhereIs(ds: seq<Desc>, typ: nat, inst: nat, slots: Slots, c: nat, base: nat) returns (i: nat, j: nat)
    ensures var spot := Where(ds, typ, inst, slots, c, base);
            if Before(ds, |ds|, typ, inst) <= c then spot == Skip
            else
              i < |ds| && Matches(ds[i], typ, inst) && Before(ds, i, typ, inst) == c
              && var off, v := base + P.Offset(ds, i), Vsize(ds[i]);
                 if i + 1 < |ds| && ds[i + 1].More? then
                   j <= ds[i + 1].length && Present(slots, off, v, j)
                   && (if j == ds[i + 1].length then spot == Skip
                       else SlotAt(off, v, j) !in slots && spot == At(i, SlotAt(off, v, j), 0))
                 else spot == At(i, off, 1)
  {
    hide FreeSlot, FindDesc, Matches, SlotAt, Present;
    i, j := 0, 0;
    FindAll(ds, typ, inst, c);
    var found := FindDesc(ds, typ, inst, c);
    if found.Found? {
      i := found.index;
      if i + 1 < |ds| && ds[i + 1].More? {
        var off, v, n := base + found.offset, Vsize(ds[i]), ds[i + 1].length;
        j := FreeSlot(slots, off, v, n, 0);
        NonePresent(slots, off, v);
        FreeSlotExactly(slots, off, v, n, 0);
      }
    }
  }

  lemma NonePresent(slots: Slots, off: nat, v: nat)
    ensures Present(slots, off, v, 0)
  {}

  lemma SameCounts(counts: Counts, typ: nat, inst: nat)
    ensures var key, c := (typ, inst), CountOf(counts, typ, inst);
            var counts' := if key in counts then counts else counts[key := 0];
            counts' == counts[key := c] && counts'[key] == c && counts'[key := c + 1] == counts[key := c + 1]
  {}

  lemma FindAll(ds: seq<Desc>, typ: nat, inst: nat, pos: nat)
    ensures var r := FindDesc(ds, typ, inst, pos);
            if Before(ds, |ds|, typ, inst) <= pos then r == NotFound
            else r.Found? && r.index < |ds| && Matches(ds[r.index], typ, inst) && Before(ds, r.index, typ, inst) == pos
                 && r.offset == P.Offset(ds, r.index)
  {
    FindExactly(ds, 0, typ, inst, pos);
    var r := FindDesc(ds, typ, inst, pos);
    if r.Found? { BeforeLess(ds, r.index, typ, inst); }
  }

  /** A match is counted behind it. */
  lemma BeforeLess(ds: seq<Desc>, i: nat, typ: nat, inst: nat)
    requires i < |ds| && Matches(ds[i], typ, inst)
    ensures Before(ds, i, typ, inst) < Before(ds, |ds|, typ, inst)
  {
    BeforeMono(ds, i + 1, |ds|, typ, inst);
  }

  lemma {:induction false} BeforeMono(ds: seq<Desc>, i: nat, k: nat, typ: nat, inst: nat)
    requires i <= k <= |ds|
    ensures Before(ds, i, typ, inst) <= Before(ds, k, typ, inst)
    decreases k - i
  {
    if i < k { BeforeMono(ds, i, k - 1, typ, inst); }
  }

  // ---------------------------------------------------------------- unknown elements

  /** The types and instances of a list of elements. */
  function Keys(es: seq<Element>): set<(nat, nat)> {
    if es == [] then {} else {(es[0].typ, es[0].instance)} + Keys(es[1..])
  }

  /** No descriptor has this type and instance. */
  ghost predicate Unknown(ds: seq<Desc>, typ: nat, inst: nat) {
    forall i :: 0 <= i < |ds| ==> !Matches(ds[i], typ, inst)
  }

  /** The same slots, or both failed. */
  ghost predicate SameOutcome(a: Parsed, b: Parsed) {
    (a == ParseError <==> b == ParseError) && (a.Parsed? && b.Parsed? ==> a.slots == b.slots)
  }

  /** The same counts but for one type and instance. */
  ghost predicate SameBut(a: Counts, b: Counts, key: (nat, nat)) {
    forall k :: k != key ==> (k in a <==> k in b) && (k in a ==> a[k] == b[k])
  }

  /** There are counters for all the elements to come. */
  ghost predicate Enough(counts: Counts, es: seq<Element>) {
    |counts.Keys + Keys(es)| <= 128
  }

  lemma {:induction false} NoneBefore(ds: seq<Desc>, k: nat, typ: nat, inst: nat)
    requires Unknown(ds, typ, inst) && k <= |ds|
    ensures Before(ds, k, typ, inst) == 0
    decreases k
  {
    hide Matches;
    if k > 0 { NoneBefore(ds, k - 1, typ, inst); }
  }

  /** An element of an unknown type and instance is skipped. */
  lemma SkipOne(ds: seq<Desc>, e: Element, slots: Slots, counts: Counts, base: nat, data: Data, mode: Mode)
    requires Unknown(ds, e.typ, e.instance) && ((e.typ, e.instance) in counts || |counts| < 128)
    ensures var r := ParseOne(ds, e, slots, counts, base, data, mode);
            r == Parsed(slots, counts[(e.typ, e.instance) := CountOf(counts, e.typ, e.instance)])
  {
    hide ParseOne, StoreOne, FreeSlot, Matches, SlotAt, CountOf, Unknown;
    NoneBefore(ds, |ds|, e.typ, e.instance);
    var i, j := ElementOutcome(ds, e, slots, counts, base, data, mode);
  }

  lemma EnoughNext(counts: Counts, es: seq<Element>, c: nat)
    requires es != [] && Enough(counts, es)
    ensures var key := (es[0].typ, es[0].instance);
            (key in counts || |counts| < 128) && Enough(counts[key := c], es[1..])
  {
    var key := (es[0].typ, es[0].instance);
    assert counts[key := c].Keys + Keys(es[1..]) == counts.Keys + Keys(es);
    if key !in counts {
      Larger(counts.Keys + {key}, counts.Keys + Keys(es));
      assert |counts.Keys + {key}| == |counts.Keys| + 1 == |counts| + 1;
    }
  }

  lemma Larger(a: set<(nat, nat)>, b: set<(nat, nat)>)
    requires a <= b
    ensures |a| <= |b|
  {
    assert b == a + (b - a);
  }

  /** The counter of an unknown type makes no difference. */
  lemma {:induction false} SameParse(ds: seq<Desc>, es: seq<Element>, slots: Slots, a: Counts, b: Counts,
                                     key: (nat, nat),
                                     base: nat, data: Data, mode: Mode)
    requires Unknown(ds, key.0, key.1) && SameBut(a, b, key) && Enough(a, es) && Enough(b, es)
    ensures SameOutcome(ParseList(ds, es, slots, a, base, data, mode), ParseList(ds, es, slots, b, base, data, mode))
    decreases |es|
  {
    if es != [] {
      hide ParseOne, Unknown, SameBut, Enough;
      var e := es[0];
      var ra, rb := ParseOne(ds, e, slots, a, base, data, mode), ParseOne(ds, e, slots, b, base, data, mode);
      SameStep(ds, es, slots, a, b, key, base, data, mode);
      if ra.Parsed? { SameParse(ds, es[1..], ra.slots, ra.counts, rb.counts, key, base, data, mode); }
    }
  }

  lemma SameStep(ds: seq<Desc>, es: seq<Element>, slots: Slots, a: Counts, b: Counts, key: (nat, nat),
                 base: nat, data: Data, mode: Mode)
    requires es != [] && Unknown(ds, key.0, key.1) && SameBut(a, b, key) && Enough(a, es) && Enough(b, es)
    ensures var ra, rb := ParseOne(ds, es[0], slots, a, base, data, mode), ParseOne(ds, es[0], slots, b, base, data,
                                   mode);
            SameOutcome(ra, rb)
            && (ra.Parsed? ==> SameBut(ra.counts, rb.counts, key) && Enough(ra.counts, es[1..]) && Enough(rb.counts, es[1..]))
  {
    hide ParseOne, Unknown, Enough, SameBut, SameOutcome, CountOf;
    var e := es[0];
    var ca, cb := CountOf(a, e.typ, e.instance), CountOf(b, e.typ, e.instance);
    EnoughNext(a, es, ca); EnoughNext(b, es, cb);
    if (e.typ, e.instance) == key {
      SkipOne(ds, e, slots, a, base, data, mode);
      SkipOne(ds, e, slots, b, base, data, mode);
      SkipBoth(slots, a[key := ca], b[key := cb]);
      ButNext(a, b, key, key, ca, cb);
    } else {
      ButCount(a, b, key, e.typ, e.instance);
      var n := KnownStep(ds, e, slots, a, b, base, data, mode);
      EnoughNext(a, es, n); EnoughNext(b, es, n);
      ButNext(a, b, key, (e.typ, e.instance), n, n);
    }
  }

  lemma ButNext(a: Counts, b: Counts, key: (nat, nat), k: (nat, nat), m: nat, n: nat)
    requires SameBut(a, b, key) && (m == n || k == key)
    ensures SameBut(a[k := m], b[k := n], key)
  {}

  lemma ButCount(a: Counts, b: Counts, key: (nat, nat), typ: nat, inst: nat)
    requires SameBut(a, b, key) && (typ, inst) != key
    ensures CountOf(a, typ, inst) == CountOf(b, typ, inst)
  {}

  /** What an element does depends on the counter of its own type and instance only. */
  lemma KnownStep(ds: seq<Desc>, e: Element, slots: Slots, a: Counts, b: Counts, base: nat, data: Data, mode: Mode)
    returns (n: nat)
    requires ((e.typ, e.instance) in a || |a| < 128) && ((e.typ, e.instance) in b || |b| < 128)
    requires CountOf(a, e.typ, e.instance) == CountOf(b, e.typ, e.instance)
    ensures var ra, rb := ParseOne(ds, e, slots, a, base, data, mode), ParseOne(ds, e, slots, b, base, data, mode);
            SameOutcome(ra, rb)
            && (ra.Parsed? ==> ra.counts == a[(e.typ, e.instance) := n] && rb.counts == b[(e.typ, e.instance) := n])
  {
    hide StoreOne, FindPlace, Where, CountOf, ParseOne, SameOutcome;
    var c := CountOf(a, e.typ, e.instance);
    PlaceIs(ds, e.typ, e.instance, slots, a, base);
    PlaceIs(ds, e.typ, e.instance, slots, b, base);
    OneIs(ds, e, slots, a, base, data, mode);
    OneIs(ds, e, slots, b, base, data, mode);
    var spot := Where(ds, e.typ, e.instance, slots, c, base);
    n := if spot == Skip then c else c + spot.more;
    SkipBoth(slots, a[(e.typ, e.instance) := n], b[(e.typ, e.instance) := n]);
    if spot.At? && spot.index < |ds| {
      StoreBoth(ds[spot.index], e, slots, a[(e.typ, e.instance) := n], b[(e.typ, e.instance) := n], spot.off, data,
                mode);
    }
  }

  lemma SkipBoth(slots: Slots, a: Counts, b: Counts)
    ensures SameOutcome(Parsed(slots, a), Parsed(slots, b)) && SameOutcome(ParseError, ParseError)
  {}

  lemma StoreBoth(d: Desc, e: Element, slots: Slots, a: Counts, b: Counts, off: nat, data: Data, mode: Mode)
    ensures var ra, rb := StoreOne(d, e, slots, a, off, data, mode), StoreOne(d, e, slots, b, off, data, mode);
            SameOutcome(ra, rb) && (ra.Parsed? ==> ra.counts == a && rb.counts == b)
  {
    hide ParseList, Fits, Elements, LengthOk, ParseLeaf;
  }

  /** An element whose type and instance are in no descriptor changes nothing: neither whether the
      packet is accepted, nor any slot. */
  lemma UnknownSkipped(ds: seq<Desc>, a: seq<Element>, e: Element, b: seq<Element>, slots: Slots, counts: Counts,
                       base: nat, data: Data, mode: Mode)
    requires Unknown(ds, e.typ, e.instance) && Enough(counts, a + [e] + b)
    ensures SameOutcome(ParseList(ds, a + [e] + b, slots, counts, base, data, mode),
                        ParseList(ds, a + b, slots, counts, base, data, mode))
  {
    hide ParseList, ParseOne, Unknown, Enough, Keys;
    assert a + [e] + b == a + ([e] + b);
    P.ParseJoin(ds, a, [e] + b, slots, counts, base, data, mode);
    P.ParseJoin(ds, a, b, slots, counts, base, data, mode);
    var r := ParseList(ds, a, slots, counts, base, data, mode);
    if r.Parsed? {
      EnoughAfter(ds, a, [e] + b, slots, counts, base, data, mode);
      EnoughNext(r.counts, [e] + b, CountOf(r.counts, e.typ, e.instance));
      assert ([e] + b)[0] == e && ([e] + b)[1..] == b;
      SkipOne(ds, e, r.slots, r.counts, base, data, mode);
      P.ParseCons(ds, e, b, r.slots, r.counts, base, data, mode);
      EnoughLess(r.counts, e, b);
      SameParse(ds, b, r.slots, r.counts[(e.typ, e.instance) := CountOf(r.counts, e.typ, e.instance)], r.counts,
                (e.typ, e.instance), base, data, mode);
    }
  }

  lemma EnoughLess(counts: Counts, e: Element, b: seq<Element>)
    requires Enough(counts, [e] + b)
    ensures Enough(counts, b)
  {
    assert ([e] + b)[0] == e && ([e] + b)[1..] == b;
    Larger(counts.Keys + Keys(b), counts.Keys + Keys([e] + b));
  }

  /** Parsing the first elements leaves enough counters for the others. */
  lemma {:induction false} EnoughAfter(ds: seq<Desc>, a: seq<Element>, b: seq<Element>, slots: Slots, counts: Counts,
                                       base: nat, data: Data, mode: Mode)
    requires Enough(counts, a + b)
    ensures var r := ParseList(ds, a, slots, counts, base, data, mode); r.Parsed? ==> Enough(r.counts, b)
    decreases |a|
  {
    hide ParseOne, Enough, CountOf, SameOutcome;
    if a == [] {
      assert a + b == b;
    } else {
      var e := a[0];
      var r, c := ParseOne(ds, e, slots, counts, base, data, mode), CountOf(counts, e.typ, e.instance);
      assert (a + b)[0] == e && (a + b)[1..] == a[1..] + b;
      EnoughNext(counts, a + b, c);
      var n := KnownStep(ds, e, slots, counts, counts, base, data, mode);
      EnoughNext(counts, a + b, n);
      if r.Parsed? { EnoughAfter(ds, a[1..], b, r.slots, r.counts, base, data, mode); }
    }
  }
}
