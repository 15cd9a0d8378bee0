/** Type-length-value elements: their rendering, and the elements of a block of bytes. */
module Tlv {
  import opened Arith

  datatype Mode = T1L1 | T1L2 | T1L2I1 | T2L2 | T1

  datatype Value = Leaf(bytes: seq<Byte>) | Block(elements: seq<Tlv>)

  datatype Tlv = Tlv(mode: Mode, typ: nat, instance: nat, value: Value)

  // ---------------------------------------------------------------- rendering

  function HeaderSize(mode: Mode): nat {
    match mode
    case T1L1 => 2
    case T1L2 => 3
    case T1L2I1 => 4
    case T2L2 => 4
    case T1 => 1
  }

  /** tlv_put_type, tlv_put_length and tlv_put_instance: fields are truncated to their width. */
  function PutType(mode: Mode, typ: nat): seq<Byte> {
    match mode
    case T2L2 => [(typ / 256) % 256, typ % 256]
    case _ => [typ % 256]
  }

  function PutLength(mode: Mode, length: nat): seq<Byte> {
    match mode
    case T1L1 => [length % 256]
    case T1 => []
    case _ => [(length / 256) % 256, length % 256]
  }

  function PutInstance(mode: Mode, instance: nat): seq<Byte> {
    if mode == T1L2I1 then [instance % 256] else []
  }

  function Header(mode: Mode, typ: nat, length: nat, instance: nat): (r: seq<Byte>)
    ensures |r| == HeaderSize(mode)
  {
    PutType(mode, typ) + PutLength(mode, length) + PutInstance(mode, instance)
  }

  /** The length that ogs_tlv_calc_length adds up. */
  function Length(ts: seq<Tlv>): nat {
    if ts == [] then 0 else HeaderSize(ts[0].mode) + ValueLength(ts[0]) + Length(ts[1..])
  }

  function ValueLength(t: Tlv): nat {
    match t.value
    case Leaf(bytes) => |bytes|
    case Block(elements) => Length(elements)
  }

  function Render(ts: seq<Tlv>): seq<Byte> {
    if ts == [] then [] else RenderOne(ts[0]) + Render(ts[1..])
  }

  function RenderOne(t: Tlv): seq<Byte>
    decreases t, 1
  {
    Header(t.mode, t.typ, ValueLength(t), t.instance) + Payload(t)
  }

  function Payload(t: Tlv): seq<Byte>
    decreases t, 0
  {
    match t.value
    case Leaf(bytes) => bytes
    case Block(elements) => Render(elements)
  }

  /** What is rendered has the calculated length. */
  lemma {:induction false} RenderLength(ts: seq<Tlv>)
    ensures |Render(ts)| == Length(ts)
  {
    if ts != [] {
      PayloadLength(ts[0]);
      RenderLength(ts[1..]);
    }
  }

  lemma {:induction false} PayloadLength(t: Tlv)
    ensures |Payload(t)| == ValueLength(t)
  {
    match t.value
    case Leaf(bytes) =>
    case Block(elements) => RenderLength(elements);
  }

  // ---------------------------------------------------------------- parsing

  /** An element found at some position; its value is an address. */
  datatype Element = Element(mode: Mode, typ: nat, length: nat, instance: nat, value: nat)

  /** The memory around a packet: reads past its end find arbitrary bytes. */
  type Data = nat -> Byte

  /** tlv_get_element */
  function GetElement(data: Data, pos: nat, mode: Mode): (e: Element)
    ensures e.value == pos + HeaderSize(mode) && e.mode == mode
  {
    match mode
    case T1L1 => Element(mode, data(pos), data(pos + 1), 0, pos + 2)
    case T1L2 => Element(mode, data(pos), data(pos + 1) * 256 + data(pos + 2), 0, pos + 3)
    case T1L2I1 => Element(mode, data(pos), data(pos + 1) * 256 + data(pos + 2), data(pos + 3) % 16, pos + 4)
    case T2L2 => Element(mode, data(pos) * 256 + data(pos + 1), data(pos + 2) * 256 + data(pos + 3), 0, pos + 4)
    case T1 => Element(mode, data(pos), 0, 0, pos + 1)
  }

  function End(e: Element): nat {
    e.value + e.length
  }

  /** The elements that ogs_tlv_parse_block finds from `pos` on: at least one, and then more as
      long as the end is not reached. */
  function Elements(data: Data, pos: nat, end: nat, mode: Mode): (es: seq<Element>)
    ensures es != []
    decreases end - pos
  {
    var e := GetElement(data, pos, mode);
    if End(e) < end then [e] + Elements(data, End(e), end, mode) else [e]
  }

  /** The block is well formed if its last element ends where it should. */
  predicate Fits(data: Data, pos: nat, end: nat, mode: Mode) {
    var es := Elements(data, pos, end, mode);
    End(es[|es| - 1]) == end
  }

  // ---------------------------------------------------------------- round trip

  /** The fields of an element fit the widths of its mode, and all modes are the same. */
  predicate Encodable(t: Tlv, mode: Mode) {
    && t.mode == mode && mode != T1
    && t.typ < (if mode == T2L2 then 0x1_0000 else 0x100)
    && ValueLength(t) < (if mode == T1L1 then 0x100 else 0x1_0000)
    && t.instance < (if mode == T1L2I1 then 16 else 1)
    && match t.value
       case Leaf(bytes) => true
       case Block(elements) => elements != [] && AllEncodable(elements, mode)
  }

  predicate AllEncodable(ts: seq<Tlv>, mode: Mode) {
    ts == [] || (Encodable(ts[0], mode) && AllEncodable(ts[1..], mode))
  }

  /** The bytes s lie at address pos. */
  ghost predicate Lies(data: Data, pos: nat, s: seq<Byte>) {
    forall i :: 0 <= i < |s| ==> data(pos + i) == s[i]
  }

  lemma LiesParts(data: Data, pos: nat, a: seq<Byte>, b: seq<Byte>)
    requires Lies(data, pos, a + b)
    ensures Lies(data, pos, a) && Lies(data, pos + |a|, b)
  {
    forall i | 0 <= i < |a| ensures data(pos + i) == a[i] { assert (a + b)[i] == a[i]; }
    forall i | 0 <= i < |b| ensures data(pos + |a| + i) == b[i] {
      assert (a + b)[|a| + i] == b[i];
      assert pos + (|a| + i) == pos + |a| + i;
    }
  }

  /** Reading back one header. */
  lemma HeaderBack(data: Data, pos: nat, t: Tlv, mode: Mode)
    requires Encodable(t, mode) && Lies(data, pos, Header(mode, t.typ, ValueLength(t), t.instance))
    ensures GetElement(data, pos, mode) == Element(mode, t.typ, ValueLength(t), t.instance, pos + HeaderSize(mode))
  {
    HeaderBytes(data, pos, mode, t.typ, ValueLength(t), t.instance);
    hide Lies, Header, ValueLength, AllEncodable;
    Digits(t.typ); Digits(ValueLength(t));
  }

  lemma Digits(x: nat)
    requires x < 0x1_0000
    ensures ((x / 256) % 256) * 256 + x % 256 == x && (x < 256 ==> x % 256 == x)
  {}

  lemma HeaderBytes(data: Data, pos: nat, mode: Mode, typ: nat, length: nat, instance: nat)
    requires mode != T1 && Lies(data, pos, Header(mode, typ, length, instance))
    ensures data(pos) == if mode == T2L2 then (typ / 256) % 256 else typ % 256
    ensures data(pos + 1) == if mode == T2L2 then typ % 256 else if mode == T1L1 then length % 256 else (length / 256) % 256
    ensures mode == T1L2 || mode == T1L2I1 ==> data(pos + 2) == length % 256
    ensures mode == T2L2 ==> data(pos + 2) == (length / 256) % 256 && data(pos + 3) == length % 256
    ensures mode == T1L2I1 ==> data(pos + 3) == instance % 256
  {
    var h := Header(mode, typ, length, instance);
    assert data(pos + 0) == h[0] && data(pos + 1) == h[1];
    if mode != T1L1 { assert data(pos + 2) == h[2]; }
    if mode == T1L2I1 || mode == T2L2 { assert data(pos + 3) == h[3]; }
  }

  /** The elements of a rendering, each with the address of its payload. */
  function Placed(ts: seq<Tlv>, pos: nat): seq<Element> {
    if ts == [] then []
    else
      var t := ts[0];
      var value := pos + HeaderSize(t.mode);
      [Element(t.mode, t.typ, ValueLength(t), t.instance, value)] + Placed(ts[1..], value + ValueLength(t))
  }

  /** Parsing a rendering finds exactly its elements. */
  lemma {:induction false} ParseRendered(data: Data, pos: nat, ts: seq<Tlv>, mode: Mode)
    requires ts != [] && AllEncodable(ts, mode) && Lies(data, pos, Render(ts))
    ensures Elements(data, pos, pos + Length(ts), mode) == Placed(ts, pos)
    ensures Fits(data, pos, pos + Length(ts), mode)
    decreases |ts|
  {
    hide Header, GetElement, Lies, ValueLength, Payload;
    var t, rest := ts[0], ts[1..];
    var h := Header(mode, t.typ, ValueLength(t), t.instance);
    PayloadLength(t);
    LiesParts(data, pos, RenderOne(t), Render(rest));
    LiesParts(data, pos, h, Payload(t));
    HeaderBack(data, pos, t, mode);
    var next := pos + HeaderSize(mode) + ValueLength(t);
    if rest == [] {
      assert Length(ts) == HeaderSize(mode) + ValueLength(t);
    } else {
      LengthPositive(rest);
      ParseRendered(data, next, rest, mode);
    }
  }

  lemma LengthPositive(ts: seq<Tlv>)
    requires ts != []
    ensures Length(ts) > 0
  {}

  /** Each payload is found at the address of its element. */
  lemma {:induction false} PayloadPlaced(data: Data, pos: nat, ts: seq<Tlv>, i: nat)
    requires i < |ts| && Lies(data, pos, Render(ts))
    ensures |Placed(ts, pos)| == |ts|
    ensures var e := Placed(ts, pos)[i];
            e.typ == ts[i].typ && e.length == ValueLength(ts[i]) && e.instance == ts[i].instance && e.mode == ts[i].mode
            && Lies(data, e.value, Payload(ts[i]))
    decreases |ts|
  {
    var t, rest := ts[0], ts[1..];
    PayloadLength(t);
    LiesParts(data, pos, RenderOne(t), Render(rest));
    LiesParts(data, pos, Header(t.mode, t.typ, ValueLength(t), t.instance), Payload(t));
    if rest != [] {
      PayloadPlaced(data, pos + HeaderSize(t.mode) + ValueLength(t), rest, if i == 0 then 0 else i - 1);
    }
  }

  /** Parsing all the way down, where the original has a block. */
  function Reparse(data: Data, pos: nat, end: nat, mode: Mode, shape: seq<Tlv>): seq<Tlv>
    decreases shape
  {
    Restore(data, Elements(data, pos, end, mode), mode, shape)
  }

  function Restore(data: Data, es: seq<Element>, mode: Mode, shape: seq<Tlv>): seq<Tlv>
    decreases shape, 0
  {
    if es == [] || shape == [] then []
    else [RestoreOne(data, es[0], mode, shape[0])] + Restore(data, es[1..], mode, shape[1..])
  }

  function RestoreOne(data: Data, e: Element, mode: Mode, shape: Tlv): Tlv
    decreases shape, 1
  {
    Tlv(e.mode, e.typ, e.instance,
        match shape.value
        case Leaf(_) => Leaf(Bytes(data, e.value, e.length))
        case Block(elements) => Block(Restore(data, Elements(data, e.value, e.value + e.length, mode), mode, elements)))
  }

  function Bytes(data: Data, pos: nat, n: nat): seq<Byte> {
    seq(n, i requires 0 <= i < n => data(pos + i))
  }

  lemma {:induction false} RestorePlaced(data: Data, pos: nat, ts: seq<Tlv>, mode: Mode)
    requires AllEncodable(ts, mode) && Lies(data, pos, Render(ts))
    ensures Restore(data, Placed(ts, pos), mode, ts) == ts
    decreases ts, 0
  {
    hide RestoreOne, Header, Payload, ValueLength, Encodable, Lies;
    if ts != [] {
      var t, rest := ts[0], ts[1..];
      PayloadLength(t);
      LiesParts(data, pos, RenderOne(t), Render(rest));
      LiesParts(data, pos, Header(t.mode, t.typ, ValueLength(t), t.instance), Payload(t));
      var value := pos + HeaderSize(t.mode);
      var e := Element(t.mode, t.typ, ValueLength(t), t.instance, value);
      assert Placed(ts, pos) == [e] + Placed(rest, value + ValueLength(t));
      RestorePlaced(data, value + ValueLength(t), rest, mode);
      assert RestoreOne(data, e, mode, t) == t by { RestoreElement(data, e, t, mode); }
      assert Placed(ts, pos)[1..] == Placed(rest, value + ValueLength(t));
    }
  }

  lemma {:induction false} RestoreElement(data: Data, e: Element, t: Tlv, mode: Mode)
    requires Encodable(t, mode) && e.typ == t.typ && e.mode == t.mode && e.instance == t.instance
             && e.length == ValueLength(t)
    requires Lies(data, e.value, Payload(t))
    ensures RestoreOne(data, e, mode, t) == t
    decreases t, 1
  {
    match t.value
    case Leaf(bytes) =>
      assert Bytes(data, e.value, e.length) == bytes;
    case Block(elements) =>
      ParseRendered(data, e.value, elements, mode);
      RestorePlaced(data, e.value, elements, mode);
  }

  /** Parsing what was rendered gives back the elements, blocks within blocks included. */
  lemma RoundTrip(data: Data, pos: nat, ts: seq<Tlv>, mode: Mode)
    requires ts != [] && AllEncodable(ts, mode) && Lies(data, pos, Render(ts))
    ensures Reparse(data, pos, pos + |Render(ts)|, mode, ts) == ts && Fits(data, pos, pos + |Render(ts)|, mode)
  {
    RenderLength(ts);
    ParseRendered(data, pos, ts, mode);
    RestorePlaced(data, pos, ts, mode);
  }
}
