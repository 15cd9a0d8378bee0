/** Measuring and rendering a chain of nodes, with the embedded blocks in place. */
module TlvRender {
  import opened Sequences
  import opened Arith
  import opened Tlv
  import opened TlvPool
  import opened TlvNodes

  // ---------------------------------------------------------------- lengths written back

  /** Only the lengths of nodes with a block have changed. */
  ghost predicate Relengthed(c: seq<Cell>, c': seq<Cell>, nodes: seq<nat>) {
    |c'| == |c| && forall i :: 0 <= i < |c| ==>
      c'[i] == c[i].(element := c[i].element.(length := c'[i].element.length))
      && (c[i].embedded == 0 || i + 1 !in nodes ==> c'[i] == c[i])
  }

  lemma RelengthedChain(c: seq<Cell>, c': seq<Cell>, nodes: seq<nat>, p: nat, ts: seq<Tree>, vs: seq<Tlv>)
    requires Relengthed(c, c', nodes)
    ensures Rep(c, p, ts) ==> Rep(c', p, ts)
    ensures Carries(c, ts, vs) ==> Carries(c', ts, vs)
  {
    hide Order;
    if Rep(c, p, ts) { RepLinks(c, c', p, ts); }
    if Carries(c, ts, vs) { CarriesFrame(c, c', ts, vs); }
  }

  lemma RelengthedTwice(c: seq<Cell>, c': seq<Cell>, c'': seq<Cell>, nodes: seq<nat>)
    requires Relengthed(c, c', nodes) && Relengthed(c', c'', nodes)
    ensures Relengthed(c, c'', nodes)
  {}

  lemma RelengthedMore(c: seq<Cell>, c': seq<Cell>, a: seq<nat>, b: seq<nat>)
    requires Relengthed(c, c', a) && forall k :: k in a ==> k in b
    ensures Relengthed(c, c', b)
  {}

  lemma RelengthedSet(c: seq<Cell>, node: nat, n: nat, nodes: seq<nat>)
    requires 1 <= node <= |c| && c[node - 1].embedded != 0 && node in nodes
    ensures Relengthed(c, c[node - 1 := c[node - 1].(element := c[node - 1].element.(length := n))], nodes)
  {}

  lemma RelengthedSelf(c: seq<Cell>, nodes: seq<nat>)
    ensures Relengthed(c, c, nodes)
  {}

  /** Every node with a block holds its length. */
  ghost predicate Measured(c: seq<Cell>, ts: seq<Tree>, vs: seq<Tlv>)
    decreases ts
  {
    if ts == [] || vs == [] then true
    else MeasuredOne(c, ts[0], vs[0]) && Measured(c, ts[1..], vs[1..])
  }

  ghost predicate MeasuredOne(c: seq<Cell>, t: Tree, v: Tlv)
    decreases t
  {
    v.value.Block? ==>
      1 <= t.node <= |c| && c[t.node - 1].element.length == Length(v.value.elements)
      && Measured(c, t.kids, v.value.elements)
  }

  lemma {:induction false} MeasuredFrame(c: seq<Cell>, c': seq<Cell>, ts: seq<Tree>, vs: seq<Tlv>)
    requires Measured(c, ts, vs) && |c'| == |c| && forall i :: 0 <= i < |c| && i + 1 in Order(ts) ==> c'[i] == c[i]
    ensures Measured(c', ts, vs)
    decreases ts
  {
    if ts != [] && vs != [] {
      hide Order, Length;
      OrderIs(ts);
      MeasuredOneFrame(c, c', ts[0], vs[0]);
      MeasuredFrame(c, c', ts[1..], vs[1..]);
    }
  }

  lemma {:induction false} MeasuredOneFrame(c: seq<Cell>, c': seq<Cell>, t: Tree, v: Tlv)
    requires MeasuredOne(c, t, v) && |c'| == |c|
    requires forall i :: 0 <= i < |c| && (i + 1 in Order(t.kids) || i + 1 == t.node) ==> c'[i] == c[i]
    ensures MeasuredOne(c', t, v)
    decreases t
  {
    hide Order, Length;
    if v.value.Block? {
      assert t.node - 1 + 1 == t.node;
      MeasuredFrame(c, c', t.kids, v.value.elements);
    }
  }

  lemma {:induction false} MeasuredLast(c: seq<Cell>, ts: seq<Tree>, vs: seq<Tlv>, t: Tree, v: Tlv)
    requires Measured(c, ts, vs) && |ts| == |vs| && MeasuredOne(c, t, v)
    ensures Measured(c, ts + [t], vs + [v])
    decreases |ts|
  {
    hide MeasuredOne;
    if ts == [] {
      assert [] + [t] == [t] && [] + [v] == [v] && [t][1..] == [];
    } else {
      assert (ts + [t])[0] == ts[0] && (ts + [t])[1..] == ts[1..] + [t];
      assert (vs + [v])[0] == vs[0] && (vs + [v])[1..] == vs[1..] + [v];
      MeasuredLast(c, ts[1..], vs[1..], t, v);
    }
  }

  // ---------------------------------------------------------------- walking a chain

  /** The nodes of a chain from the i-th on, and what is known about that node. */
  ghost predicate Walking(c: seq<Cell>, iter: nat, ts: seq<Tree>, vs: seq<Tlv>, i: nat) {
    i <= |ts| == |vs| && Rep(c, iter, ts[i..]) && Carries(c, ts, vs) && NoDup(Order(ts))
  }

  lemma WalkStart(c: seq<Cell>, root: nat, ts: seq<Tree>, vs: seq<Tlv>)
    requires Rep(c, root, ts) && Carries(c, ts, vs) && NoDup(Order(ts))
    ensures |ts| == |vs| && Walking(c, root, ts, vs, 0)
  {
    hide Order, NoDup, Rep, CarriesOne;
    assert ts[0..] == ts;
    CarriesLength(c, ts, vs);
  }

  lemma WalkAt(c: seq<Cell>, iter: nat, ts: seq<Tree>, vs: seq<Tlv>, i: nat)
    requires Walking(c, iter, ts, vs, i)
    ensures (iter == 0 <==> i == |ts|) && NoDup(Order(ts))
    ensures i < |ts| == |vs| ==>
              var t, v := ts[i], vs[i];
              1 <= iter <= |c| && iter == t.node && iter in Order(ts) && CarriesOne(c, t, v)
              && var cell := c[iter - 1];
                 cell.element.mode == v.mode && (cell.embedded == 0 <==> v.value.Leaf?) && Rep(c, cell.embedded, t.kids) && NoDup(Order(t.kids)) && iter !in Order(t.kids)
                 && (forall k :: k in Order(t.kids) ==> k in Order(ts)) && Walking(c, cell.next, ts, vs, i + 1)
  {
    hide Order, NoDup;
    if i < |ts| {
      CarriesAt(c, ts, vs, i);
      KidsAt(ts, i);
      assert ts[i..][0] == ts[i] && ts[i..][1..] == ts[i + 1..];
    }
  }

  lemma {:induction false} KidsAt(ts: seq<Tree>, i: nat)
    requires i < |ts| && NoDup(Order(ts))
    ensures NoDup(Order(ts[i].kids)) && ts[i].node in Order(ts) && ts[i].node !in Order(ts[i].kids)
    ensures forall k :: k in Order(ts[i].kids) ==> k in Order(ts)
    ensures forall k :: k in Order(ts[i].kids) || k == ts[i].node ==> k !in Order(ts[..i])
    decreases |ts|
  {
    hide Order, NoDup;
    OrderIs(ts);
    DisjointParts(ts);
    if i == 0 {
      assert ts[..0] == [];
      NothingOrdered();
    } else {
      KidsAt(ts[1..], i - 1);
      assert ts[..i][0] == ts[0] && ts[..i][1..] == ts[1..][..i - 1];
      OrderIs(ts[..i]);
    }
  }

  /** The walk goes on after lengths have been written. */
  lemma WalkOn(c: seq<Cell>, c': seq<Cell>, iter: nat, ts: seq<Tree>, vs: seq<Tlv>, i: nat, nodes: seq<nat>)
    requires Walking(c, iter, ts, vs, i) && Relengthed(c, c', nodes)
    ensures Walking(c', iter, ts, vs, i)
  {
    hide Order, NoDup, Rep, Carries, Relengthed;
    RelengthedChain(c, c', nodes, iter, ts[i..], []);
    RelengthedChain(c, c', nodes, iter, ts, vs);
  }

  lemma SumStep(vs: seq<Tlv>, i: nat)
    requires i < |vs|
    ensures Length(vs[i..]) == HeaderSize(vs[i].mode) + ValueLength(vs[i]) + Length(vs[i + 1..])
  {
    assert vs[i..][0] == vs[i] && vs[i..][1..] == vs[i + 1..];
  }

  lemma SumNothing(vs: seq<Tlv>)
    ensures Length(vs[|vs|..]) == 0 && vs[0..] == vs
  {}

  /** ogs_tlv_calc_length: the length of a chain, with the length of every block written back. */
  method CalcLength(pool: Pool, root: nat, ghost ts: seq<Tree>, ghost vs: seq<Tlv>) returns (length: nat)
    requires pool.Valid() && Rep(pool.cells, root, ts) && Carries(pool.cells, ts, vs) && NoDup(Order(ts))
    modifies pool`cells
    ensures pool.Valid() && Relengthed(old(pool.cells), pool.cells, Order(ts))
    ensures length == Length(vs) && Measured(pool.cells, ts, vs)
    decreases ts, 1
  {
    hide Pool.Valid, Rep, Carries, CarriesOne, NoDup, Order, Walking, Relengthed, Measured, MeasuredOne, Length,
         ValueLength;
    ghost var c0 := pool.cells;
    WalkStart(c0, root, ts, vs);
    RelengthedSelf(c0, Order(ts));
    MeasuredNothing(c0, ts, vs);
    SumNothing(vs);
    var iter := root;
    ghost var i := 0;
    length := 0;
    while iter != 0
      invariant pool.Valid() && i <= |ts| == |vs| && Walking(pool.cells, iter, ts, vs, i)
                && Relengthed(c0, pool.cells, Order(ts))
      invariant length + Length(vs[i..]) == Length(vs) && Measured(pool.cells, ts[..i], vs[..i])
      decreases |ts| - i
    {
      WalkAt(pool.cells, iter, ts, vs, i);
      SumStep(vs, i);
      length := length + HeaderSize(pool.cells[iter - 1].element.mode);
      var n := CalcValue(pool, iter, ts, vs, i);
      length := length + n;
      iter := pool.cells[iter - 1].next;
      i := i + 1;
    }
    WalkAt(pool.cells, iter, ts, vs, i);
    assert ts[..|ts|] == ts && vs[..|vs|] == vs;
  }

  lemma MeasuredNothing(c: seq<Cell>, ts: seq<Tree>, vs: seq<Tlv>)
    ensures Measured(c, ts[..0], vs[..0]) && (vs == [] || ts == [] ==> Measured(c, ts, vs))
  {}

  /** The length of one value: that of the block is calculated and written back first. */
  method CalcValue(pool: Pool, iter: nat, ghost ts: seq<Tree>, ghost vs: seq<Tlv>, ghost i: nat) returns (n: nat)
    requires pool.Valid() && iter != 0 && Walking(pool.cells, iter, ts, vs, i) && i < |ts| == |vs|
    requires Measured(pool.cells, ts[..i], vs[..i])
    modifies pool`cells
    ensures pool.Valid() && Relengthed(old(pool.cells), pool.cells, Order(ts)) && n == ValueLength(vs[i])
    ensures 1 <= iter <= |pool.cells| && Walking(pool.cells, pool.cells[iter - 1].next, ts, vs, i + 1)
    ensures forall c0 :: Relengthed(c0, old(pool.cells), Order(ts)) ==> Relengthed(c0, pool.cells, Order(ts))
    ensures Measured(pool.cells, ts[..i + 1], vs[..i + 1])
    decreases ts, 0
  {
    hide Pool.Valid, Rep, Carries, NoDup, Order, Walking, Relengthed, Measured, Length;
    ghost var c, t, v := pool.cells, ts[i], vs[i];
    WalkAt(c, iter, ts, vs, i);
    if pool.cells[iter - 1].embedded != 0 {
      n := CalcLength(pool, pool.cells[iter - 1].embedded, t.kids, v.value.elements);
      ghost var c1 := pool.cells;
      pool.ValidQueue();
      RelengthedMore(c, c1, Order(t.kids), Order(ts));
      SameNodeStill(c, c1, Order(t.kids), iter);
      pool.SetCell(iter, pool.cells[iter - 1].(element := pool.cells[iter - 1].element.(length := n)));
      RelengthedSet(c1, iter, n, Order(ts));
      RelengthedTwice(c, c1, pool.cells, Order(ts));
      MeasuredFrame(c1, pool.cells, t.kids, v.value.elements);
      WalkOn(c, pool.cells, iter, ts, vs, i, Order(ts));
      WalkAt(pool.cells, iter, ts, vs, i);
      PrefixStill(c, pool.cells, c1, ts, vs, i);
    } else {
      n := pool.cells[iter - 1].element.length;
      RelengthedSelf(c, Order(ts));
    }
    assert ts[..i + 1] == ts[..i] + [t] && vs[..i + 1] == vs[..i] + [v];
    MeasuredLast(pool.cells, ts[..i], vs[..i], t, v);
    forall c0 | Relengthed(c0, c, Order(ts)) ensures Relengthed(c0, pool.cells, Order(ts)) {
      RelengthedTwice(c0, c, pool.cells, Order(ts));
    }
  }

  lemma SameNodeStill(c: seq<Cell>, c': seq<Cell>, nodes: seq<nat>, node: nat)
    requires Relengthed(c, c', nodes) && 1 <= node <= |c| && node !in nodes
    ensures |c'| == |c| && c'[node - 1] == c[node - 1]
  {
    assert node - 1 + 1 == node;
  }

  /** The nodes before the i-th are as they were. */
  lemma PrefixStill(c: seq<Cell>, c2: seq<Cell>, c1: seq<Cell>, ts: seq<Tree>, vs: seq<Tlv>, i: nat)
    requires i < |ts| == |vs| && NoDup(Order(ts)) && Relengthed(c, c1, Order(ts[i].kids))
             && Measured(c, ts[..i], vs[..i])
    requires |c2| == |c1| && 1 <= ts[i].node <= |c1| && forall k :: 0 <= k < |c1| && k + 1 != ts[i].node ==>
               c2[k] == c1[k]
    ensures Measured(c2, ts[..i], vs[..i])
  {
    hide Order, NoDup;
    KidsAt(ts, i);
    MeasuredFrame(c, c2, ts[..i], vs[..i]);
  }

  // ---------------------------------------------------------------- rendering

  /** The buffer holds s from `pos` on, and is as it was everywhere else. */
  twostate predicate Wrote(buf: array<Byte>, pos: nat, s: seq<Byte>)
    reads buf
  {
    pos + |s| <= buf.Length && buf[pos..pos + |s|] == s
    && forall k :: 0 <= k < buf.Length && !(pos <= k < pos + |s|) ==> buf[k] == old(buf[k])
  }

  method Put(buf: array<Byte>, pos: nat, s: seq<Byte>)
    requires pos + |s| <= buf.Length
    modifies buf
    ensures Wrote(buf, pos, s)
  {
    for i := 0 to |s|
      invariant forall k :: 0 <= k < i ==> buf[pos + k] == s[k]
      invariant forall k :: 0 <= k < buf.Length && !(pos <= k < pos + |s|) ==> buf[k] == old(buf[k])
    {
      buf[pos + i] := s[i];
    }
  }

  /** ogs_tlv_render.  `length` is the room that is left from `start` on. */
  method RenderInto(pool: Pool, root: nat, buf: array<Byte>, start: nat, length: nat, ghost ts: seq<Tree>,
                    ghost vs: seq<Tlv>) returns (n: nat)
    requires pool.Valid() && Rep(pool.cells, root, ts) && Carries(pool.cells, ts, vs) && NoDup(Order(ts))
    requires Length(vs) <= length && start + length <= buf.Length
    modifies pool`cells, buf
    ensures pool.Valid() && Relengthed(old(pool.cells), pool.cells, Order(ts))
    ensures n == Length(vs) && Wrote(buf, start, Render(vs))
    decreases ts, 1
  {
    hide Pool.Valid, Rep, Carries, CarriesOne, NoDup, Order, Walking, Relengthed, Length, ValueLength, Render,
         RenderOne;
    ghost var c0 := pool.cells;
    WalkStart(c0, root, ts, vs);
    RelengthedSelf(c0, Order(ts));
    RenderLength(vs);
    var pos, iter := start, root;
    ghost var done: seq<Byte>, i := [], 0;
    assert vs[0..] == vs;
    while iter != 0
      invariant pool.Valid() && i <= |ts| == |vs| && Walking(pool.cells, iter, ts, vs, i)
                && Relengthed(c0, pool.cells, Order(ts))
      invariant pos == start + |done| && done + Render(vs[i..]) == Render(vs)
      invariant pos <= buf.Length && buf[start..pos] == done
      invariant forall k :: 0 <= k < buf.Length && !(start <= k < pos) ==> buf[k] == old(buf[k])
      decreases |ts| - i
    {
      WalkAt(pool.cells, iter, ts, vs, i);
      RenderStep(vs, i);
      ghost var before := buf[..];
      var next := RenderElement(pool, iter, buf, pos, length - (pos - start), ts, vs, i);
      Joined(before, buf[..], start, pos, done, RenderOne(vs[i]));
      pos := next;
      done := done + RenderOne(vs[i]);
      iter := pool.cells[iter - 1].next;
      i := i + 1;
    }
    WalkAt(pool.cells, iter, ts, vs, i);
    RenderNothing(vs);
    n := pos - start;
  }

  lemma RenderStep(vs: seq<Tlv>, i: nat)
    requires i < |vs|
    ensures Render(vs[i..]) == RenderOne(vs[i]) + Render(vs[i + 1..])
  {
    assert vs[i..][0] == vs[i] && vs[i..][1..] == vs[i + 1..];
  }

  lemma RenderNothing(vs: seq<Tlv>)
    ensures Render(vs[|vs|..]) == []
  {}

  /** One node: its header, and its value or its block. */
  method RenderElement(pool: Pool, iter: nat, buf: array<Byte>, pos: nat, room: nat, ghost ts: seq<Tree>,
                       ghost vs: seq<Tlv>, ghost i: nat)
    returns (next: nat)
    requires pool.Valid() && iter != 0 && Walking(pool.cells, iter, ts, vs, i) && i < |ts| == |vs|
    requires |RenderOne(vs[i])| <= room && pos + room <= buf.Length
    modifies pool`cells, buf
    ensures pool.Valid() && 1 <= iter <= |pool.cells| && Walking(pool.cells, pool.cells[iter - 1].next, ts, vs, i + 1)
    ensures forall c0 :: Relengthed(c0, old(pool.cells), Order(ts)) ==> Relengthed(c0, pool.cells, Order(ts))
    ensures next == pos + |RenderOne(vs[i])| && Wrote(buf, pos, RenderOne(vs[i]))
    decreases ts, 0
  {
    hide Pool.Valid, Rep, Carries, NoDup, Order, Walking, Relengthed, Header, Length, ValueLength, Payload, Render,
         RenderOne, Measured;
    ghost var c, t, v := pool.cells, ts[i], vs[i];
    WalkAt(c, iter, ts, vs, i);
    ElementParts(v);
    var e, embedded := pool.cells[iter - 1].element, pool.cells[iter - 1].embedded;
    var at := pos + HeaderSize(e.mode);
    var n := e.length;
    RelengthedSelf(c, Order(ts));
    if embedded != 0 {
      n := CalcLength(pool, embedded, t.kids, v.value.elements);
      RelengthedChain(c, pool.cells, Order(t.kids), embedded, t.kids, v.value.elements);
    }
    ghost var c1 := pool.cells;
    Put(buf, pos, Header(e.mode, e.typ, n, e.instance));
    ghost var before := buf[..];
    if embedded == 0 {
      Put(buf, at, pool.cells[iter - 1].bytes);
    } else {
      var rendered := RenderInto(pool, embedded, buf, at, room - (at - pos), t.kids, v.value.elements);
      RelengthedTwice(c, c1, pool.cells, Order(t.kids));
      RelengthedMore(c, pool.cells, Order(t.kids), Order(ts));
    }
    WalkOn(c, pool.cells, iter, ts, vs, i, Order(ts));
    WalkAt(pool.cells, iter, ts, vs, i);
    next := at + n;
    Joined(before, buf[..], pos, at, Header(e.mode, e.typ, n, e.instance), Payload(v));
    forall c0 | Relengthed(c0, c, Order(ts)) ensures Relengthed(c0, pool.cells, Order(ts)) {
      RelengthedTwice(c0, c, pool.cells, Order(ts));
    }
  }

  /** The header and the payload of an element. */
  lemma ElementParts(t: Tlv)
    ensures RenderOne(t) == Header(t.mode, t.typ, ValueLength(t), t.instance) + Payload(t)
    ensures |Payload(t)| == ValueLength(t)
    ensures t.value.Leaf? ==> Payload(t) == t.value.bytes
    ensures t.value.Block? ==> Payload(t) == Render(t.value.elements) && ValueLength(t) == Length(t.value.elements)
  {
    hide Header;
    PayloadLength(t);
  }

  lemma Joined(before: seq<Byte>, b: seq<Byte>, start: nat, pos: nat, done: seq<Byte>, p: seq<Byte>)
    requires |before| == |b| && start <= pos && pos + |p| <= |b| && before[start..pos] == done && b[pos..pos + |p|] == p
    requires forall k :: 0 <= k < pos ==> b[k] == before[k]
    ensures b[start..pos + |p|] == done + p
  {
    assert b[start..pos] == before[start..pos];
    assert b[start..pos + |p|] == b[start..pos] + b[pos..pos + |p|];
  }
}
