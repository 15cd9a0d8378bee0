/** Parsing a packet into a message, with nodes from the pool. */
module TlvParse {
  import opened Sequences
  import opened Arith
  import opened Tlv
  import opened TlvMsg
  import opened TlvPool
  import P = TlvMsgProof

  /** The message that is filled in. */
  class Message {
    var slots: Slots

    constructor ()
      ensures slots == map[]
    {
      slots := map[];
    }
  }

  /** tlv_find_desc_by_type_inst */
  method FindDescriptor(ds: seq<Desc>, typ: nat, inst: nat, pos: nat) returns (found: Found)
    ensures found == FindDesc(ds, typ, inst, pos)
  {
    var i: nat, offset: nat, matched: nat := 0, 0, 0;
    while i < |ds|
      invariant i <= |ds| && FindFrom(ds, i, offset, matched, typ, inst, pos) == FindDesc(ds, typ, inst, pos)
    {
      if Typ(ds[i]) == typ && Inst(ds[i]) == inst {
        if matched == pos {
          return Found(i, offset);
        }
        matched := matched + 1;
      }
      offset := offset + Step(ds, i);
      i := i + 1;
    }
    return NotFound;
  }

  /** The slot for an element: the rb-tree of counts is a map, with room for 128 entries. */
  method FindSlot(ds: seq<Desc>, e: Element, slots: Slots, counts: Counts, base: nat) returns (place: Place)
    ensures place == FindPlace(ds, e.typ, e.instance, slots, counts, base)
  {
    hide FindDesc;
    var key, counts' := (e.typ, e.instance), counts;
    if key !in counts' {
      if |counts'| == MAX_CHILD_DESC {
        return TooMany;
      }
      counts' := counts'[key := 0];
    }
    var found := FindDescriptor(ds, e.typ, e.instance, counts'[key]);
    if found == NotFound {
      return Ignored(counts');
    }
    var i, off := found.index, base + found.offset;
    if i + 1 < |ds| && ds[i + 1].More? {
      var n, j := ds[i + 1].length, 0;
      while j < n && SlotAt(off, Vsize(ds[i]), j) in slots
        invariant j <= n && FreeSlot(slots, off, Vsize(ds[i]), n, j) == FreeSlot(slots, off, Vsize(ds[i]), n, 0)
      {
        j := j + 1;
      }
      if j == n {
        return Ignored(counts');
      }
      return Place(i, SlotAt(off, Vsize(ds[i]), j), counts');
    }
    return Place(i, off, counts'[key := counts'[key] + 1]);
  }

  // ---------------------------------------------------------------- the parser

  /** Nodes that were neither free nor in the chain are as they were. */
  ghost predicate Elsewhere(cells: seq<Cell>, cells': seq<Cell>, queue: seq<nat>, nodes: seq<nat>) {
    |cells'| == |cells| && forall i :: 0 <= i < |cells| && i + 1 !in queue && i + 1 !in nodes ==> cells'[i] == cells[i]
  }

  /** Free nodes and nodes of the chain, none twice. */
  ghost predicate Apart(queue: seq<nat>, nodes: seq<nat>) {
    NoDup(nodes) && forall k :: k in nodes ==> k !in queue
  }

  /** The node has the embedded block `kids`, if that is not empty. */
  ghost predicate Embeds(cells: seq<Cell>, cells': seq<Cell>, tlv: nat, kids: seq<Tree>)
    requires 1 <= tlv <= |cells| == |cells'|
  {
    if kids == [] then cells'[tlv - 1] == cells[tlv - 1]
    else cells'[tlv - 1] == cells[tlv - 1].(embedded := kids[0].node) && kids[0].node != 0
         && Rep(cells', kids[0].node, kids)
  }

  /** What storing an element does to the pool: free nodes may have become its embedded block. */
  ghost predicate Stored(c: seq<Cell>, q: seq<nat>, c': seq<Cell>, q': seq<nat>, tlv: nat, kids: seq<Tree>) {
    && |c| == |c'| && 1 <= tlv <= |c|
    && multiset(q') + multiset(Order(kids)) == multiset(q)
    && Elsewhere(c, c', q, [tlv])
    && Embeds(c, c', tlv, kids)
  }

  lemma StoredNothing(c: seq<Cell>, q: seq<nat>, tlv: nat)
    requires 1 <= tlv <= |c|
    ensures Stored(c, q, c, q, tlv, [])
  {
    NothingOrdered();
  }

  ghost predicate Holds(pool: Pool, tlv: nat, e: Element)
    reads pool, pool.free, pool.index
  {
    pool.Valid() && 1 <= tlv <= pool.size && tlv !in pool.queue && pool.cells[tlv - 1].element == e
    && pool.cells[tlv - 1].embedded == 0
  }

  lemma HoldsFacts(pool: Pool, tlv: nat, e: Element)
    requires Holds(pool, tlv, e)
    ensures pool.Valid() && 1 <= tlv <= pool.size == |pool.cells| && tlv !in pool.queue && NoDup(pool.queue)
    ensures pool.cells[tlv - 1].element == e && pool.cells[tlv - 1].embedded == 0
  {}

  /** An element with its descriptor: a leaf is stored, a compound is parsed in turn. */
  method StoreElement(pool: Pool, msg: Message, d: Desc, tlv: nat, e: Element, off: nat, depth: nat, mode: Mode,
                      data: Data, ghost counts: Counts)
    returns (ok: bool, aborted: bool, ghost kids: seq<Tree>)
    requires Holds(pool, tlv, e)
    modifies pool, pool.free, pool.index, msg
    ensures pool.free == old(pool.free) && pool.index == old(pool.index)
    ensures aborted ==> pool.queue == [] || depth + DepthOne(d) > MAX_DEPTH
    ensures !aborted ==>
              pool.Valid() && pool.size == old(pool.size)
              && Stored(old(pool.cells), old(pool.queue), pool.cells, pool.queue, tlv, kids)
    ensures var r := StoreOne(d, e, old(msg.slots), counts, off, data, mode);
            !aborted ==> ok == r.Parsed? && (ok ==> msg.slots == r.slots)
    decreases d, 0
  {
    hide Elements, Fits, ParseList, Rep, Stored, Holds, LengthOk, ParseLeaf;
    kids := [];
    aborted := false;
    HoldsFacts(pool, tlv, e);
    match d {
      case LeafDesc(_, _, _, _, _) =>
        ok := LengthOk(d, e.length);
        StoredNothing(pool.cells, pool.queue, tlv);
        if ok {
          msg.slots := msg.slots[off := ParseLeaf(d, e, data)];
        }
      case More(_) =>
        ok := false;
        StoredNothing(pool.cells, pool.queue, tlv);
      case CompoundDesc(_, _, _, children) =>
        ok, aborted, kids := StoreCompound(pool, msg, children, tlv, e, off, depth, mode, data);
    }
  }

  /** ogs_tlv_parse_embedded_block, then the children. */
  method StoreCompound(pool: Pool, msg: Message, children: seq<Desc>, tlv: nat, e: Element, off: nat, depth: nat,
                       mode: Mode, data: Data)
    returns (ok: bool, aborted: bool, ghost kids: seq<Tree>)
    requires Holds(pool, tlv, e)
    modifies pool, pool.free, pool.index, msg
    ensures pool.free == old(pool.free) && pool.index == old(pool.index)
    ensures aborted ==> pool.queue == [] || depth + 1 + Depth(children) > MAX_DEPTH
    ensures !aborted ==>
              pool.Valid() && pool.size == old(pool.size)
              && Stored(old(pool.cells), old(pool.queue), pool.cells, pool.queue, tlv, kids)
    ensures var r := ParseList(children, Elements(data, e.value, e.value + e.length, mode), old(msg.slots), map[],
                               off + PRESENCE, data, mode);
            !aborted ==>
              ok == (Fits(data, e.value, e.value + e.length, mode) && r.Parsed?)
              && (ok ==> msg.slots == r.slots[off := Mark])
    decreases children, 2
  {
    hide Elements, Fits, ParseList, Rep, Stored, Holds, NoDup, Order, Pool.Valid, Listed, Untouched, Grown, Depth;
    HoldsFacts(pool, tlv, e);
    ghost var c, q := pool.cells, pool.queue;
    kids := [];
    ok := false;
    var root, dry, nodes := pool.ParseBlock(data, e.value, e.length, mode);
    aborted := dry;
    if aborted {
      return;
    }
    if root == 0 {
      StoredFailed(c, q, pool.cells, pool.queue, tlv);
      return;
    }
    ghost var c1, q1, es := pool.cells, pool.queue, Elements(data, e.value, e.value + e.length, mode);
    BlockFacts(pool, q, c, nodes, es);
    SameNode(c, c1, q, tlv);
    pool.SetCell(tlv, pool.cells[tlv - 1].(embedded := root));
    BlockKept(c1, pool.cells, tlv, nodes, es, q);
    MakeChain(pool.cells, pool.queue, root, nodes, es);
    hide Chain;
    ok, aborted, kids := ParseCompound(pool, msg, children, root, off + PRESENCE, depth + 1, mode, data, nodes, es);
    if !aborted {
      StoredBlock(c, q, c1, q1, pool.cells, pool.queue, tlv, root, nodes, es, kids);
      if ok {
        msg.slots := msg.slots[off := Mark];
      }
    }
  }

  /** The chain of a block: its nodes, and their elements. */
  ghost predicate Chain(cells: seq<Cell>, queue: seq<nat>, root: nat, nodes: seq<nat>, es: seq<Element>) {
    Listed(cells, nodes, es) && nodes != [] && root == nodes[0] && NoDup(nodes) && forall k :: k in nodes ==>
      k !in queue
  }

  /** tlv_parse_compound: the chain becomes a chain of trees. */
  method ParseCompound(pool: Pool, msg: Message, ds: seq<Desc>, root: nat, base: nat, depth: nat, mode: Mode,
                       data: Data, ghost nodes: seq<nat>, ghost es: seq<Element>)
    returns (ok: bool, aborted: bool, ghost ts: seq<Tree>)
    requires pool.Valid() && Chain(pool.cells, pool.queue, root, nodes, es)
    modifies pool, pool.free, pool.index, msg
    ensures pool.free == old(pool.free) && pool.index == old(pool.index)
    ensures aborted ==> pool.queue == [] || depth + Depth(ds) > MAX_DEPTH
    ensures !aborted ==>
              pool.Valid() && pool.size == old(pool.size)
              && Grown(old(pool.cells), old(pool.queue), pool.cells, pool.queue, root, nodes, ts)
    ensures var r := ParseList(ds, es, old(msg.slots), map[], base, data, mode);
            !aborted ==> ok == r.Parsed? && (ok ==> msg.slots == r.slots)
    decreases ds, 1
  {
    hide ParseList, ParseOne, StoreOne, FindPlace, Chain, Mid, Grown, Stored, Holds, NodeAt, Pool.Valid;
    ghost var c, q, slots := pool.cells, pool.queue, msg.slots;
    ok := true;
    ts := Plain(nodes);
    if depth > MAX_DEPTH {
      aborted := true;
      return;
    }
    aborted := false;
    pool.ValidQueue();
    MidStart(c, q, root, nodes, es);
    var tlv := root;
    ghost var i := 0;
    var counts: Counts := map[];
    assert es[0..] == es;
    while tlv != 0
      invariant pool.Valid() && pool.size == old(pool.size) && pool.free == old(pool.free)
                && pool.index == old(pool.index)
      invariant Mid(c, q, pool.cells, pool.queue, root, nodes, es, ts, i) && i <= |nodes| == |es|
                && tlv == NodeAt(nodes, i)
      invariant ParseList(ds, es[i..], msg.slots, counts, base, data, mode) == ParseList(ds, es, slots, map[], base, data, mode)
      decreases |nodes| - i
    {
      MidFacts(pool, c, q, root, nodes, es, ts, i);
      var e := pool.cells[tlv - 1].element;
      assert es[i..] == [e] + es[i + 1..];
      P.ParseCons(ds, e, es[i + 1..], msg.slots, counts, base, data, mode);
      var place := FindSlot(ds, e, msg.slots, counts, base);
      PlaceKinds(ds, e, msg.slots, counts, base, data, mode);
      if place.TooMany? || (place.Place? && place.index >= |ds|) {
        ok := false;
        MidGrown(c, q, pool.cells, pool.queue, root, nodes, es, ts, i);
        return;
      }
      counts := place.counts;
      if place.Ignored? {
        MidSkip(c, q, pool.cells, pool.queue, root, nodes, es, ts, i);
      } else {
        ghost var c1, q1, slots1 := pool.cells, pool.queue, msg.slots;
        ghost var kids: seq<Tree>;
        ok, aborted, kids := StoreElement(pool, msg, ds[place.index], tlv, e, place.off, depth, mode, data, counts);
        if aborted {
          DepthAt(ds, place.index);
          return;
        }
        StoreCounts(ds[place.index], e, slots1, counts, place.off, data, mode);
        MidStore(c, q, c1, q1, pool.cells, pool.queue, root, nodes, es, ts, i, kids);
        ts := if kids == [] then ts else ts[i := Tree(tlv, kids)];
        if !ok {
          MidGrown(c, q, pool.cells, pool.queue, root, nodes, es, ts, i + 1);
          return;
        }
      }
      MidNext(pool, c, q, root, nodes, es, ts, i);
      tlv := pool.cells[tlv - 1].next;
      i := i + 1;
    }
    NodeEnd(nodes, i);
    assert es[i..] == [];
    P.ParseNone(ds, msg.slots, counts, base, data, mode);
    MidGrown(c, q, pool.cells, pool.queue, root, nodes, es, ts, i);
  }

  ghost function NodeAt(nodes: seq<nat>, i: nat): nat {
    if i < |nodes| then nodes[i] else 0
  }

  lemma NodeEnd(nodes: seq<nat>, i: nat)
    requires i <= |nodes| && NodeAt(nodes, i) == 0 && forall j :: 0 <= j < |nodes| ==> nodes[j] > 0
    ensures i == |nodes|
  {}

  /** The chain after its first i elements. */
  ghost predicate Mid(c0: seq<Cell>, q0: seq<nat>, c: seq<Cell>, q: seq<nat>, root: nat, nodes: seq<nat>,
                      es: seq<Element>, ts: seq<Tree>, i: nat) {
    && |c| == |c0| && |ts| == |nodes| == |es| > 0 && NoDup(nodes) && InRange(nodes, |c|) && Rep(c, root, ts)
    && (forall j :: 0 <= j < |nodes| ==> ts[j].node == nodes[j] && (j >= i ==> ts[j].kids == []))
    && (forall j :: 0 <= j < |nodes| ==> c[nodes[j] - 1].next == NextIn(nodes, j) && c[nodes[j] - 1].element == es[j] && (j >= i ==> c[nodes[j] - 1].embedded == 0))
    && multiset(q) + multiset(Order(ts)) == multiset(q0) + multiset(nodes)
    && NoDup(Order(ts)) && (forall k :: k in Order(ts) ==> k !in q)
    && Elsewhere(c0, c, q0, nodes)
  }

  /** What parsing a chain does to the pool. */
  ghost predicate Grown(c: seq<Cell>, q: seq<nat>, c': seq<Cell>, q': seq<nat>, root: nat, nodes: seq<nat>,
                        ts: seq<Tree>) {
    && |c'| == |c| && ts != [] && Rep(c', root, ts)
    && multiset(q') + multiset(Order(ts)) == multiset(q) + multiset(nodes)
    && Elsewhere(c, c', q, nodes)
  }

  lemma StoredFailed(c: seq<Cell>, q: seq<nat>, c': seq<Cell>, q': seq<nat>, tlv: nat)
    requires 1 <= tlv <= |c| && tlv !in q && Untouched(c, c', q) && multiset(q') == multiset(q)
    ensures Stored(c, q, c', q', tlv, [])
  {
    NothingOrdered();
    assert c'[tlv - 1] == c[tlv - 1];
  }

  lemma BlockFacts(pool: Pool, q: seq<nat>, c: seq<Cell>, nodes: seq<nat>, es: seq<Element>)
    requires pool.Parsing(q, c, nodes, es) && NoDup(q)
    ensures |nodes| <= |q| && nodes == q[..|nodes|] && pool.queue == q[|nodes|..] && q == nodes + pool.queue
    ensures NoDup(nodes) && (forall k :: k in nodes ==> k !in pool.queue) && Listed(pool.cells, nodes, es)
            && Untouched(c, pool.cells, q)
  {
    assert q == nodes + pool.queue;
    SplitNoDup(nodes, pool.queue);
  }

  lemma SameNode(c: seq<Cell>, c1: seq<Cell>, q: seq<nat>, tlv: nat)
    requires Untouched(c, c1, q) && 1 <= tlv <= |c| && tlv !in q
    ensures |c1| == |c| && c1[tlv - 1] == c[tlv - 1]
  {
    assert tlv - 1 + 1 == tlv;
  }

  lemma BlockKept(c1: seq<Cell>, c2: seq<Cell>, tlv: nat, nodes: seq<nat>, es: seq<Element>, q: seq<nat>)
    requires Listed(c1, nodes, es) && 1 <= tlv <= |c1| == |c2| && c2 == c1[tlv - 1 := c2[tlv - 1]] && tlv !in q && forall k :: k in nodes ==> k in q
    ensures Listed(c2, nodes, es)
  {
    hide ListCell, NoDup, InRange;
    InRangeEach(nodes, |c1|);
    forall i | 0 <= i < |nodes| ensures c2[nodes[i] - 1] == c1[nodes[i] - 1] {
      assert nodes[i] in q;
    }
  }

  lemma InRangeEach(s: seq<nat>, n: nat)
    requires InRange(s, n)
    ensures forall i :: 0 <= i < |s| ==> 1 <= s[i] <= n
  {}

  lemma StoredBlock(c: seq<Cell>, q: seq<nat>, c1: seq<Cell>, q1: seq<nat>, c3: seq<Cell>, q3: seq<nat>, tlv: nat,
                    root: nat, nodes: seq<nat>, es: seq<Element>, kids: seq<Tree>)
    requires 1 <= tlv <= |c| == |c1| && tlv !in q && q == nodes + q1 && Untouched(c, c1, q)
             && c1[tlv - 1] == c[tlv - 1] && root != 0
    requires Grown(c1[tlv - 1 := c1[tlv - 1].(embedded := root)], q1, c3, q3, root, nodes, kids)
    ensures Stored(c, q, c3, q3, tlv, kids)
  {
    var c2 := c1[tlv - 1 := c1[tlv - 1].(embedded := root)];
    assert multiset(q) == multiset(nodes) + multiset(q1);
    assert root == kids[0].node;
    assert forall k :: k in nodes || k in q1 ==> k in q;
    assert tlv - 1 + 1 == tlv;
    assert c3[tlv - 1] == c2[tlv - 1];
    forall i | 0 <= i < |c| && i + 1 !in q && i + 1 !in [tlv] ensures c3[i] == c[i] {
      assert c3[i] == c2[i] && c1[i] == c[i];
    }
  }

  lemma MidStart(c: seq<Cell>, q: seq<nat>, root: nat, nodes: seq<nat>, es: seq<Element>)
    requires Chain(c, q, root, nodes, es)
    ensures Mid(c, q, c, q, root, nodes, es, Plain(nodes), 0) && |nodes| == |es| && root == NodeAt(nodes, 0)
    ensures forall j :: 0 <= j < |nodes| ==> nodes[j] > 0
  {
    ListedRep(c, nodes, es);
  }

  lemma MidFacts(pool: Pool, c0: seq<Cell>, q0: seq<nat>, root: nat, nodes: seq<nat>, es: seq<Element>, ts: seq<Tree>,
                 i: nat)
    requires pool.Valid() && Mid(c0, q0, pool.cells, pool.queue, root, nodes, es, ts, i) && i <= |nodes|
             && NodeAt(nodes, i) != 0
    ensures i < |nodes| == |ts| && NodeAt(nodes, i) == nodes[i] && NoDup(pool.queue)
    ensures 1 <= nodes[i] <= |pool.cells| && pool.cells[nodes[i] - 1].element == es[i] && Holds(pool, nodes[i], es[i])
  {
    hide Order, Rep;
    pool.ValidQueue();
    NodeIn(ts, i);
  }

  lemma PlaceKinds(ds: seq<Desc>, e: Element, slots: Slots, counts: Counts, base: nat, data: Data, mode: Mode)
    ensures var place, r := FindPlace(ds, e.typ, e.instance, slots, counts, base), ParseOne(ds, e, slots, counts, base,
                                      data, mode);
            if place.TooMany? || (place.Place? && place.index >= |ds|) then r == ParseError
            else if place.Ignored? then r == Parsed(slots, place.counts)
            else r == StoreOne(ds[place.index], e, slots, place.counts, place.off, data, mode)
  {
    hide FindPlace, StoreOne;
  }

  lemma StoreCounts(d: Desc, e: Element, slots: Slots, counts: Counts, off: nat, data: Data, mode: Mode)
    ensures var r := StoreOne(d, e, slots, counts, off, data, mode); r.Parsed? ==> r.counts == counts
  {
    hide ParseList, Fits, Elements, LengthOk, ParseLeaf;
  }

  lemma MidGrown(c0: seq<Cell>, q0: seq<nat>, c: seq<Cell>, q: seq<nat>, root: nat, nodes: seq<nat>, es: seq<Element>,
                 ts: seq<Tree>, i: nat)
    requires Mid(c0, q0, c, q, root, nodes, es, ts, i)
    ensures Grown(c0, q0, c, q, root, nodes, ts)
  {
    hide Rep, Order, Elsewhere;
  }

  lemma MidSkip(c0: seq<Cell>, q0: seq<nat>, c: seq<Cell>, q: seq<nat>, root: nat, nodes: seq<nat>, es: seq<Element>,
                ts: seq<Tree>, i: nat)
    requires Mid(c0, q0, c, q, root, nodes, es, ts, i)
    ensures Mid(c0, q0, c, q, root, nodes, es, ts, i + 1)
  {
    hide Rep, Order, Elsewhere;
  }

  lemma MidNext(pool: Pool, c0: seq<Cell>, q0: seq<nat>, root: nat, nodes: seq<nat>, es: seq<Element>, ts: seq<Tree>,
                i: nat)
    requires Mid(c0, q0, pool.cells, pool.queue, root, nodes, es, ts, i + 1) && i < |nodes|
    ensures 1 <= nodes[i] <= |pool.cells| && pool.cells[nodes[i] - 1].next == NodeAt(nodes, i + 1)
  {
    hide Rep, Order, Elsewhere;
  }

  /** Lists with no element in common and none twice, from their multisets. */
  lemma FromSingle(a: seq<nat>, b: seq<nat>)
    requires forall k :: (multiset(a) + multiset(b))[k] <= 1
    ensures NoDup(b) && forall k :: k in b ==> k !in a
  {
    forall i, j | 0 <= i < j < |b| ensures b[i] != b[j] {
      assert (multiset(a) + multiset(b))[b[j]] == multiset(a)[b[j]] + multiset(b)[b[j]];
      if b[i] == b[j] { TwiceIn(b, i, j); }
    }
    forall k | k in b ensures k !in a {
      assert k in multiset(b);
      assert (multiset(a) + multiset(b))[k] == multiset(a)[k] + multiset(b)[k];
    }
  }

  lemma ToSingle(a: seq<nat>, b: seq<nat>)
    requires NoDup(a) && NoDup(b) && forall k :: k in b ==> k !in a
    ensures forall k :: (multiset(a) + multiset(b))[k] <= 1
  {
    forall k ensures (multiset(a) + multiset(b))[k] <= 1 {
      AtMostOnce(a, k); AtMostOnce(b, k);
      assert (multiset(a) + multiset(b))[k] == multiset(a)[k] + multiset(b)[k];
    }
  }

  /** The chain after its i-th node got its embedded block. */
  lemma StoreRep(c: seq<Cell>, q: seq<nat>, c': seq<Cell>, q': seq<nat>, root: nat, nodes: seq<nat>, ts: seq<Tree>,
                 i: nat, kids: seq<Tree>)
    requires Rep(c, root, ts) && NoDup(Order(ts)) && (forall k :: k in Order(ts) ==> k !in q)
    requires i < |nodes| == |ts| && ts[i] == Tree(nodes[i], []) && Stored(c, q, c', q', nodes[i], kids)
    ensures Rep(c', root, if kids == [] then ts else ts[i := Tree(nodes[i], kids)])
  {
    hide Order;
    var tlv := nodes[i];
    NodeIn(ts, i);
    forall k | 0 <= k < |c| && k + 1 in Order(ts)
      ensures c'[k] == if k + 1 == tlv && kids != [] then c[k].(embedded := kids[0].node) else c[k]
    {
      if k + 1 != tlv { assert k + 1 !in [tlv]; } else { assert k == tlv - 1; }
    }
    if kids == [] {
      RepFrame(c, c', root, ts);
    } else {
      Attach(c, c', root, ts, i, kids[0].node, kids);
    }
  }

  lemma StoreOrder(q0: seq<nat>, q: seq<nat>, q': seq<nat>, nodes: seq<nat>, ts: seq<Tree>, i: nat, kids: seq<Tree>)
    requires i < |nodes| == |ts| && ts[i] == Tree(nodes[i], []) && multiset(q') + multiset(Order(kids)) == multiset(q)
    requires multiset(q) + multiset(Order(ts)) == multiset(q0) + multiset(nodes)
    requires NoDup(q) && NoDup(Order(ts)) && (forall k :: k in Order(ts) ==> k !in q)
    ensures var ts' := if kids == [] then ts else ts[i := Tree(nodes[i], kids)];
            multiset(q') + multiset(Order(ts')) == multiset(q0) + multiset(nodes)
            && NoDup(Order(ts')) && (forall k :: k in Order(ts') ==> k !in q')
  {
    hide Order, NoDup;
    var ts' := if kids == [] then ts else ts[i := Tree(nodes[i], kids)];
    NothingOrdered();
    if kids != [] { AttachOrder(ts, i, kids); }
    assert multiset(Order(ts')) == multiset(Order(ts)) + multiset(Order(kids));
    assert multiset(q') + multiset(Order(ts')) == multiset(q) + multiset(Order(ts));
    ToSingle(q, Order(ts));
    FromSingle(q', Order(ts'));
  }

  /** The i-th element stored. */
  lemma MidStore(c0: seq<Cell>, q0: seq<nat>, c: seq<Cell>, q: seq<nat>, c': seq<Cell>, q': seq<nat>, root: nat,
                 nodes: seq<nat>, es: seq<Element>, ts: seq<Tree>, i: nat, kids: seq<Tree>)
    requires Mid(c0, q0, c, q, root, nodes, es, ts, i) && i < |nodes| && Stored(c, q, c', q', nodes[i], kids)
             && NoDup(q)
    ensures Mid(c0, q0, c', q', root, nodes, es, if kids == [] then ts else ts[i := Tree(nodes[i], kids)], i + 1)
  {
    hide Rep, Order, NoDup;
    var ts' := if kids == [] then ts else ts[i := Tree(nodes[i], kids)];
    assert ts[i] == Tree(nodes[i], []);
    StoreRep(c, q, c', q', root, nodes, ts, i, kids);
    StoreOrder(q0, q, q', nodes, ts, i, kids);
    StoreWalk(c, q, c', q', nodes, es, ts, i, kids);
    StoreElsewhere(c0, q0, c, q, c', nodes, ts, i);
  }

  lemma StoreWalk(c: seq<Cell>, q: seq<nat>, c': seq<Cell>, q': seq<nat>, nodes: seq<nat>, es: seq<Element>,
                  ts: seq<Tree>, i: nat, kids: seq<Tree>)
    requires i < |nodes| == |ts| == |es| && NoDup(nodes) && InRange(nodes, |c|) && Stored(c, q, c', q', nodes[i], kids)
    requires forall j :: 0 <= j < |nodes| ==> ts[j].node == nodes[j]
    requires forall k :: k in Order(ts) ==> k !in q
    ensures forall j :: 0 <= j < |nodes| ==>
              c'[nodes[j] - 1].next == c[nodes[j] - 1].next && c'[nodes[j] - 1].element == c[nodes[j] - 1].element
    ensures forall j :: 0 <= j < |nodes| && j != i ==> c'[nodes[j] - 1] == c[nodes[j] - 1]
  {
    hide Order, Rep;
    forall j | 0 <= j < |nodes| && j != i ensures c'[nodes[j] - 1] == c[nodes[j] - 1] {
      NodeIn(ts, j);
      var k := nodes[j] - 1;
      assert k + 1 == nodes[j] && k + 1 !in q && k + 1 !in [nodes[i]];
    }
  }

  lemma StoreElsewhere(c0: seq<Cell>, q0: seq<nat>, c: seq<Cell>, q: seq<nat>, c': seq<Cell>, nodes: seq<nat>,
                       ts: seq<Tree>, i: nat)
    requires i < |nodes| && Elsewhere(c0, c, q0, nodes) && Elsewhere(c, c', q, [nodes[i]])
    requires multiset(q) + multiset(Order(ts)) == multiset(q0) + multiset(nodes)
    ensures Elsewhere(c0, c', q0, nodes)
  {
    hide Order;
    forall k | 0 <= k < |c0| && k + 1 !in q0 && k + 1 !in nodes ensures c'[k] == c0[k] {
      assert k + 1 !in multiset(q0) + multiset(nodes);
      assert k + 1 !in multiset(q);
      assert k + 1 !in [nodes[i]];
    }
  }

  // ---------------------------------------------------------------- a whole message

  /** ogs_tlv_parse_msg.  Whatever the packet holds, every node that was taken from the pool is
      back in it afterwards. */
  method ParseMsg(pool: Pool, msg: Message, ds: seq<Desc>, data: Data, start: nat, length: nat, mode: Mode)
    returns (ok: bool, aborted: bool)
    requires pool.Valid()
    modifies pool, pool.free, pool.index, msg
    ensures aborted ==> pool.queue == [] || Depth(ds) > MAX_DEPTH || ds == []
    ensures !aborted ==>
              pool.Valid() && pool.size == old(pool.size) && multiset(pool.queue) == multiset(old(pool.queue))
              && pool.avail == old(pool.avail)
    ensures var r := ParseList(ds, Elements(data, start, start + length, mode), old(msg.slots), map[], 0, data, mode);
            !aborted ==> ok == (Fits(data, start, start + length, mode) && r.Parsed?) && (ok ==> msg.slots == r.slots)
  {
    hide ParseList, Elements, Fits, Pool.Valid, Chain, Grown, NoDup, Listed, Untouched;
    ghost var c, q := pool.cells, pool.queue;
    ok, aborted := false, ds == [];
    if aborted {
      return;
    }
    QueueFacts(pool);
    var root, dry, nodes := pool.ParseBlock(data, start, length, mode);
    aborted := dry;
    if aborted {
      return;
    }
    QueueFacts(pool);
    if root == 0 {
      SameSize(pool.queue, q);
      return;
    }
    ghost var es, ts := Elements(data, start, start + length, mode), [];
    BlockFacts(pool, q, c, nodes, es);
    MakeChain(pool.cells, pool.queue, root, nodes, es);
    ghost var c1, q1 := pool.cells, pool.queue;
    ok, aborted, ts := ParseCompound(pool, msg, ds, root, 0, 0, mode, data, nodes, es);
    if aborted {
      return;
    }
    QueueFacts(pool);
    GrownOwned(c1, q1, pool.cells, pool.queue, root, nodes, ts, q);
    pool.FreeAll(root, ts);
    QueueFacts(pool);
    assert multiset(pool.queue) == multiset(q);
    SameSize(pool.queue, q);
  }

  lemma MakeChain(cells: seq<Cell>, queue: seq<nat>, root: nat, nodes: seq<nat>, es: seq<Element>)
    requires Listed(cells, nodes, es) && nodes != [] && root == nodes[0] && NoDup(nodes) && forall k :: k in nodes ==>
               k !in queue
    ensures Chain(cells, queue, root, nodes, es)
  {}

  /** The grown chain holds each of its nodes once, and none of them is free. */
  lemma GrownOwned(c: seq<Cell>, q: seq<nat>, c': seq<Cell>, q': seq<nat>, root: nat, nodes: seq<nat>, ts: seq<Tree>,
                   q0: seq<nat>)
    requires Grown(c, q, c', q', root, nodes, ts) && q0 == nodes + q && NoDup(q0)
    ensures Rep(c', root, ts) && NoDup(Order(ts)) && (forall k :: k in Order(ts) ==> k !in q')
    ensures multiset(q' + Order(ts)) == multiset(q0)
  {
    hide Order, Rep;
    assert multiset(q0) == multiset(nodes) + multiset(q);
    assert forall k :: (multiset(q') + multiset(Order(ts)))[k] <= 1 by {
      forall k ensures (multiset(q') + multiset(Order(ts)))[k] <= 1 { AtMostOnce(q0, k); }
    }
    FromSingle(q', Order(ts));
  }
}
