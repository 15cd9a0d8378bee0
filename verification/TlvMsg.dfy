/** Messages described by tables: building their TLV elements, and parsing them back. */
module TlvMsg {
  import opened Arith
  import opened Tlv

  /** Signed and unsigned integers of a width are handled alike. */
  datatype CType = Uint8 | Uint16 | Uint24 | Uint32 | FixedStr | VarStr | Empty

  /** An entry of a descriptor table.  `More` follows a descriptor that may be repeated. */
  datatype Desc =
    | LeafDesc(ctype: CType, typ: nat, length: nat, instance: nat, vsize: nat)
    | CompoundDesc(typ: nat, instance: nat, vsize: nat, children: seq<Desc>)
    | More(length: nat)

  function Typ(d: Desc): nat { if d.More? then 0 else d.typ }

  function Inst(d: Desc): nat { if d.More? then 0 else d.instance }

  function Vsize(d: Desc): nat { if d.More? then 0 else d.vsize }

  /** How deep compounds are nested; building and parsing stop the program below level 8. */
  function Depth(ds: seq<Desc>): nat
    decreases ds
  {
    if ds == [] then 0 else Max(DepthOne(ds[0]), Depth(ds[1..]))
  }

  function DepthOne(d: Desc): nat
    decreases d
  {
    if d.CompoundDesc? then 1 + Depth(d.children) else 0
  }

  function Max(a: nat, b: nat): nat { if a < b then b else a }

  const MAX_DEPTH: nat := 8

  lemma {:induction false} DepthAt(ds: seq<Desc>, k: nat)
    requires k < |ds|
    ensures DepthOne(ds[k]) <= Depth(ds)
    decreases |ds|
  {
    if k > 0 { DepthAt(ds[1..], k - 1); }
  }

  /** What a slot of a message holds once it is present.  Compounds and empty elements hold
      nothing but their presence. */
  datatype Field = Num(v: nat) | Octets(bytes: seq<Byte>) | Mark

  /** The present slots of a message by their offset. */
  type Slots = map<nat, Field>

  /** sizeof(ogs_tlv_presence_t) */
  const PRESENCE: nat := 8

  // ---------------------------------------------------------------- building

  /** The offset of the j-th repeated slot. */
  function SlotAt(start: nat, v: nat, j: nat): nat {
    start + v * j
  }

  datatype Built = Built(ts: seq<Tlv>) | Failed

  function Join(a: Built, b: Built): Built {
    if a.Built? && b.Built? then Built(a.ts + b.ts) else Failed
  }

  function Number(f: Field): nat { if f.Num? then f.v else 0 }

  function Raw(f: Field): seq<Byte> { if f.Octets? then f.bytes else [] }

  /** tlv_add_leaf: the bytes of a value, integers in network order. */
  function LeafBytes(d: Desc, f: Field): seq<Byte>
    requires d.LeafDesc?
  {
    match d.ctype
    case Uint8 => BigEndian(Number(f), 1)
    case Uint16 => BigEndian(Number(f), 2)
    case Uint24 => BigEndian(Number(f), 3)
    case Uint32 => BigEndian(Number(f), 4)
    case FixedStr => if d.length <= |Raw(f)| then Raw(f)[..d.length] else Raw(f)
    case VarStr => Raw(f)
    case Empty => []
  }

  /** tlv_add_compound: all descriptors in order, from offset `off` on. */
  function BuildList(ds: seq<Desc>, m: Slots, off: nat, mode: Mode): Built
    decreases ds, 2, 0
  {
    if ds == [] then Built([])
    else if |ds| > 1 && ds[1].More? then
      Join(BuildRepeat(ds[0], m, off, ds[1].length, mode), BuildList(ds[2..], m, SlotAt(off, Vsize(ds[0]), ds[1].length), mode))
    else
      Join(if off in m then BuildOne(ds[0], m, off, mode) else Built([]), BuildList(ds[1..], m, off + Vsize(ds[0]), mode))
  }

  /** A repeated descriptor: the slots up to the first that is absent. */
  function BuildRepeat(d: Desc, m: Slots, off: nat, n: nat, mode: Mode): Built
    decreases d, 1, n
  {
    if n == 0 || off !in m then Built([])
    else Join(BuildOne(d, m, off, mode), BuildRepeat(d, m, off + Vsize(d), n - 1, mode))
  }

  function BuildOne(d: Desc, m: Slots, off: nat, mode: Mode): Built
    requires off in m
    decreases d, 0, 0
  {
    match d
    case LeafDesc(ctype, typ, length, instance, vsize) =>
      if ctype == VarStr && Raw(m[off]) == [] then Failed
      else Built([Tlv(mode, typ, instance, Leaf(LeafBytes(d, m[off])))])
    case CompoundDesc(typ, instance, vsize, children) =>
      var r := BuildList(children, m, off + PRESENCE, mode);
      if r == Failed || r.ts == [] then Failed else Built([Tlv(mode, typ, instance, Block(r.ts))])
    case More(_) => Failed
  }

  /** The slots of both, those of b where they meet. */
  function Plus(a: Slots, b: Slots): Slots {
    a + b
  }

  /** The slots that building visits. */
  function Visited(ds: seq<Desc>, m: Slots, off: nat): Slots
    decreases ds, 2, 0
  {
    if ds == [] then map[]
    else if |ds| > 1 && ds[1].More? then
      Plus(VisitedRepeat(ds[0], m, off, ds[1].length), Visited(ds[2..], m, SlotAt(off, Vsize(ds[0]), ds[1].length)))
    else
      Plus(if off in m then VisitedOne(ds[0], m, off) else map[], Visited(ds[1..], m, off + Vsize(ds[0])))
  }

  function VisitedRepeat(d: Desc, m: Slots, off: nat, n: nat): Slots
    decreases d, 1, n
  {
    if n == 0 || off !in m then map[]
    else Plus(VisitedOne(d, m, off), VisitedRepeat(d, m, off + Vsize(d), n - 1))
  }

  function VisitedOne(d: Desc, m: Slots, off: nat): Slots
    requires off in m
    decreases d, 0, 0
  {
    if d.CompoundDesc? then Visited(d.children, m, off + PRESENCE)[off := m[off]] else map[off := m[off]]
  }

  // ---------------------------------------------------------------- parsing

  datatype Found = Found(index: nat, offset: nat) | NotFound

  /** What descriptor i adds to the offset of those after it; `More` adds the repetitions. */
  function Step(ds: seq<Desc>, i: nat): nat
    requires i < |ds|
  {
    if ds[i].More? then (if i > 0 && ds[i].length > 0 then Vsize(ds[i - 1]) * (ds[i].length - 1) else 0) else Vsize(ds[i])
  }

  /** tlv_find_desc_by_type_inst: the descriptor that matches for the (pos + 1)-th time. */
  function FindFrom(ds: seq<Desc>, i: nat, offset: nat, matched: nat, typ: nat, inst: nat, pos: nat): Found
    requires i <= |ds|
    decreases |ds| - i
  {
    if i == |ds| then NotFound
    else if Typ(ds[i]) == typ && Inst(ds[i]) == inst then
      if matched == pos then Found(i, offset) else FindFrom(ds, i + 1, offset + Step(ds, i), matched + 1, typ, inst, pos)
    else FindFrom(ds, i + 1, offset + Step(ds, i), matched, typ, inst, pos)
  }

  function FindDesc(ds: seq<Desc>, typ: nat, inst: nat, pos: nat): Found {
    FindFrom(ds, 0, 0, 0, typ, inst, pos)
  }

  /** The first absent one of the n repeated slots, n if there is none. */
  function FreeSlot(slots: Slots, off: nat, vsize: nat, n: nat, j: nat): nat
    requires j <= n
    decreases n - j
  {
    if j == n || SlotAt(off, vsize, j) !in slots then j else FreeSlot(slots, off, vsize, n, j + 1)
  }

  /** The number of elements of each type and instance that have found a descriptor of their own. */
  type Counts = map<(nat, nat), nat>

  const MAX_CHILD_DESC: nat := 128

  datatype Parsed = Parsed(slots: Slots, counts: Counts) | ParseError

  /** tlv_parse_leaf */
  function ParseLeaf(d: Desc, e: Element, data: Data): (f: Field)
    requires d.LeafDesc? && LengthOk(d, e.length)
  {
    match d.ctype
    case Uint8 => Num(data(e.value))
    case Uint16 => Num(data(e.value) * 0x100 + data(e.value + 1))
    case Uint24 => Num(data(e.value) * 0x1_0000 + data(e.value + 1) * 0x100 + data(e.value + 2))
    case Uint32 => Num(data(e.value) * 0x100_0000 + data(e.value + 1) * 0x1_0000 + data(e.value + 2) * 0x100 + data(e.value + 3))
    case FixedStr => Octets(Bytes(data, e.value, e.length))
    case VarStr => Octets(Bytes(data, e.value, e.length))
    case Empty => Mark
  }

  predicate LengthOk(d: Desc, length: nat)
    requires d.LeafDesc?
  {
    match d.ctype
    case Uint8 => length == 1
    case Uint16 => 1 <= length <= 2
    case Uint24 => 1 <= length <= 3
    case Uint32 => 1 <= length <= 4
    case FixedStr => length == d.length
    case VarStr => true
    case Empty => length == 0
  }

  /** The place for an element: its descriptor, and the offset of the slot. */
  datatype Place = Place(index: nat, off: nat, counts: Counts) | Ignored(counts: Counts) | TooMany

  function FindPlace(ds: seq<Desc>, typ: nat, inst: nat, slots: Slots, counts: Counts, base: nat): Place {
    var key := (typ, inst);
    if key !in counts && |counts| == MAX_CHILD_DESC then TooMany
    else
      var counts := if key in counts then counts else counts[key := 0];
      match FindDesc(ds, typ, inst, counts[key])
      case NotFound => Ignored(counts)
      case Found(i, offset) =>
        if i + 1 < |ds| && ds[i + 1].More? then
          var j := FreeSlot(slots, base + offset, Vsize(ds[i]), ds[i + 1].length, 0);
          if j == ds[i + 1].length then Ignored(counts) else Place(i, SlotAt(base + offset, Vsize(ds[i]), j), counts)
        else Place(i, base + offset, counts[key := counts[key] + 1])
  }

  /** One element of the chain. */
  function ParseOne(ds: seq<Desc>, e: Element, slots: Slots, counts: Counts, base: nat, data: Data, mode: Mode): Parsed
    decreases ds, 1, 0
  {
    match FindPlace(ds, e.typ, e.instance, slots, counts, base)
    case TooMany => ParseError
    case Ignored(counts') => Parsed(slots, counts')
    case Place(i, off, counts') =>
      if i >= |ds| then ParseError
      else StoreOne(ds[i], e, slots, counts', off, data, mode)
  }

  function StoreOne(d: Desc, e: Element, slots: Slots, counts: Counts, off: nat, data: Data, mode: Mode): Parsed
    decreases d, 0, 0
  {
    match d
    case LeafDesc(_, _, _, _, _) =>
      if LengthOk(d, e.length) then Parsed(slots[off := ParseLeaf(d, e, data)], counts) else ParseError
    case CompoundDesc(_, _, _, children) =>
      if !Fits(data, e.value, e.value + e.length, mode) then ParseError
      else
        var r := ParseList(children, Elements(data, e.value, e.value + e.length, mode), slots, map[], off + PRESENCE,
                           data, mode);
        if r == ParseError then ParseError else Parsed(r.slots[off := Mark], counts)
    case More(_) => ParseError
  }

  /** tlv_parse_compound: the elements of a chain in order. */
  function ParseList(ds: seq<Desc>, es: seq<Element>, slots: Slots, counts: Counts, base: nat, data: Data,
                     mode: Mode): Parsed
    decreases ds, 2, |es|
  {
    if es == [] then Parsed(slots, counts)
    else
      var r := ParseOne(ds, es[0], slots, counts, base, data, mode);
      if r == ParseError then ParseError else ParseList(ds, es[1..], r.slots, r.counts, base, data, mode)
  }
}
