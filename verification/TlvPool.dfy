/** The node pool of ogs-pool.h, and the TLV nodes that are taken from it.  A pointer to a node is
    its position in the pool's array, counted from 1; 0 is NULL. */
module TlvPool {
  import opened Sequences
  import opened Arith
  import opened Tlv

  /** The fields of a node; `bytes` are those that its value points to while a message is built. */
  datatype Cell = Cell(next: nat, embedded: nat, element: Element,
                       head: nat := 0, tail: nat := 0, parent: nat := 0, bytes: seq<Byte> := [])

  const ZEROED: Cell := Cell(0, 0, Element(T1, 0, 0, 0, 0))

  predicate InRange(s: seq<nat>, n: nat) {
    forall i :: 0 <= i < |s| ==> 1 <= s[i] <= n
  }

  lemma {:induction false} Pigeonhole(s: seq<nat>, n: nat)
    requires NoDup(s) && InRange(s, n)
    ensures |s| <= n
    decreases n
  {
    if |s| > 0 {
      assert 1 <= s[0] <= n;
      if n !in s {
        Pigeonhole(s, n - 1);
      } else {
        var i :| 0 <= i < |s| && s[i] == n;
        var r := s[..i] + s[i + 1..];
        assert forall j :: 0 <= j < |r| ==> r[j] == if j < i then s[j] else s[j + 1];
        Pigeonhole(r, n - 1);
      }
    }
  }

  /** A queue that lacks a node has room for it. */
  lemma RoomFor(s: seq<nat>, n: nat, node: nat)
    requires NoDup(s) && InRange(s, n) && 1 <= node <= n && node !in s
    ensures |s| < n
  {
    Pigeonhole(s + [node], n);
  }

  function Ring(head: nat, i: nat, size: nat): nat
    requires size > 0
  {
    (head + i) % size
  }

  lemma RingNext(head: nat, i: nat, size: nat)
    requires size > 0 && head < size
    ensures Ring((head + 1) % size, i, size) == Ring(head, i + 1, size)
    ensures Ring(head, i, size) < size
  {
    if head + 1 == size {
      DivModUnique(head + 1, size, 1, 0);
      var q, r := i / size, i % size;
      DivModUnique(head + 1 + i, size, q + 1, r);
    } else {
      DivModUnique(head + 1, size, 0, head + 1);
    }
    CongMod(head + i, size);
  }

  lemma RingApart(head: nat, i: nat, j: nat, size: nat)
    requires size > 0 && head < size && i < j < size
    ensures Ring(head, i, size) != Ring(head, j, size) && Ring(head, 0, size) == head
  {
    RingValue(head, i, size); RingValue(head, j, size); RingValue(head, 0, size);
  }

  lemma RingValue(head: nat, i: nat, size: nat)
    requires size > 0 && head < size && i < size
    ensures Ring(head, i, size) == if head + i < size then head + i else head + i - size
  {
    if head + i < size {
      DivModUnique(head + i, size, 0, head + i);
    } else {
      DivModUnique(head + i, size, 1, head + i - size);
    }
  }

  lemma RingTail(head: nat, avail: nat, size: nat)
    requires size > 0 && head < size && avail < size
    ensures (Ring(head, avail, size) + 1) % size == Ring(head, avail + 1, size)
  {
    RingValue(head, avail, size);
    var t := Ring(head, avail, size);
    var x := head + avail + 1;
    if head + avail < size {
      assert t == head + avail;
    } else {
      assert t + 1 == x - size;
      var q, r := (t + 1) / size, (t + 1) % size;
      DivModUnique(x, size, q + 1, r);
    }
  }

  class Pool {
    var head: nat
    var tail: nat
    var size: nat
    var avail: nat
    var free: array<nat>
    var index: array<nat>
    /** The nodes themselves. */
    var cells: seq<Cell>

    /** The free nodes in the order in which they will be taken. */
    ghost var queue: seq<nat>

    ghost predicate Valid()
      reads this, free, index
    {
      && free.Length == index.Length == |cells| == size && free != index
      && |queue| == avail <= size && NoDup(queue) && InRange(queue, size)
      && (size > 0 ==> head < size && tail == Ring(head, avail, size))
      && (size > 0 ==> forall i :: 0 <= i < avail ==> free[Ring(head, i, size)] == queue[i])
      && (forall k :: 0 <= k < size ==> index[k] == if k + 1 in queue then 0 else k + 1)
    }

    /** The node is in use. */
    ghost predicate Taken(node: nat)
      reads this
    {
      1 <= node <= size && node !in queue
    }

    constructor (n: nat)
      ensures Valid() && fresh(free) && fresh(index) && size == avail == n
      ensures forall node :: 1 <= node <= n ==> !Taken(node)
    {
      free := new nat[n](i => i + 1);
      index := new nat[n](_ => 0);
      cells := seq(n, _ => ZEROED);
      size, avail := n, n;
      head, tail := 0, 0;
      queue := seq(n, i requires 0 <= i < n => i + 1);
      new;
      forall i | 0 <= i < n ensures Ring(0, i, n) == i { RingValue(0, i, n); }
      if n > 0 { DivModUnique(n, n, 1, 0); }
      forall node | 1 <= node <= n ensures node in queue { assert queue[node - 1] == node; }
    }

    /** ogs_pool_alloc */
    method Alloc() returns (node: nat)
      requires Valid()
      modifies this`head, this`avail, this`queue, free, index
      ensures Valid() && cells == old(cells) && size == old(size)
      ensures if old(queue) == [] then node == 0 && queue == [] else node == old(queue)[0] && queue == old(queue)[1..] && Taken(node)
    {
      node := 0;
      if avail > 0 {
        RingValue(head, 0, size);
        avail := avail - 1;
        node := free[head];
        ghost var q, h := queue, head;
        assert node == q[0];
        free[head] := 0;
        head := (head + 1) % size;
        index[node - 1] := node;
        queue := q[1..];
        RingNext(h, avail, size);
        forall i | 0 <= i < avail ensures free[Ring(head, i, size)] == queue[i] {
          RingNext(h, i, size);
          RingApart(h, 0, i + 1, size);
        }
        StillIn(q);
      }
    }

    /** Taking the first leaves exactly the others. */
    lemma StillIn(q: seq<nat>)
      requires q != [] && NoDup(q)
      ensures forall k :: k in q[1..] <==> k in q && k != q[0]
    {
      forall k ensures k in q[1..] <==> k in q && k != q[0] {
        if k in q && k != q[0] {
          var i :| 0 <= i < |q| && q[i] == k;
          assert q[1..][i - 1] == k;
        }
      }
    }

    /** ogs_pool_free */
    method Free(node: nat)
      requires Valid() && Taken(node)
      modifies this`tail, this`avail, this`queue, free, index
      ensures Valid() && queue == old(queue) + [node] && cells == old(cells) && size == old(size)
    {
      RoomFor(queue, size, node);
      if avail < size {
        ghost var q := queue;
        RingTail(head, avail, size);
        RingNext(head, avail, size);
        avail := avail + 1;
        free[tail] := node;
        tail := (tail + 1) % size;
        index[node - 1] := 0;
        queue := q + [node];
        forall i | 0 <= i < avail ensures free[Ring(head, i, size)] == queue[i] {
          RingNext(head, i, size);
          if i < |q| { RingApart(head, i, |q|, size); }
        }
      }
    }

    /** ogs_pool_find: the node of an index while it is in use. */
    method Find(i: int) returns (node: nat)
      requires Valid()
      ensures node == if 0 < i <= size && i !in queue then i else 0
    {
      node := if i > 0 && i <= size then index[i - 1] else 0;
    }

    // -------------------------------------------------------------- TLV nodes

    /** ogs_tlv_get: a zeroed node; without one the program aborts. */
    method Get() returns (node: nat)
      requires Valid()
      modifies this`head, this`avail, this`queue, this`cells, free, index
      ensures Valid() && size == old(size)
      ensures if old(queue) == [] then node == 0 && queue == [] && cells == old(cells)
              else node == old(queue)[0] && queue == old(queue)[1..] && Taken(node)
                   && cells == old(cells)[node - 1 := ZEROED]
    {
      node := Alloc();
      if node != 0 {
        cells := cells[node - 1 := ZEROED];
      }
    }

    /** All nodes of a chain are in use. */
    ghost predicate Owned(ts: seq<Tree>)
      reads this
    {
      NoDup(Order(ts)) && forall k :: k in Order(ts) ==> k !in queue
    }

    /** One node and its embedded block. */
    method FreeFirst(iter: nat, ghost ts: seq<Tree>) returns (next: nat)
      requires Valid() && ts != [] && Rep(cells, iter, ts) && Owned(ts)
      modifies this`tail, this`avail, this`queue, free, index
      ensures Valid() && queue == old(queue) + (Order(ts[0].kids) + [ts[0].node]) && cells == old(cells)
              && size == old(size)
      ensures Rep(cells, next, ts[1..]) && Owned(ts[1..])
      decreases ts, 0
    {
      hide Order, NoDup, InRange;
      ghost var t := ts[0];
      DisjointParts(ts);
      OrderIs(ts);
      RepRange(cells, iter, ts);
      OrderRange(ts, size);
      ghost var q := queue;
      if cells[iter - 1].embedded != 0 {
        FreeAll(cells[iter - 1].embedded, t.kids);
      } else {
        NothingOrdered();
      }
      next := cells[iter - 1].next;
      Free(iter);
      assert queue == q + (Order(t.kids) + [t.node]);
    }

    /** ogs_tlv_free_all: every node of the chain and of its embedded blocks goes back once. */
    method FreeAll(root: nat, ghost ts: seq<Tree>)
      requires Valid() && Rep(cells, root, ts) && Owned(ts)
      modifies this`tail, this`avail, this`queue, free, index
      ensures Valid() && queue == old(queue) + Order(ts) && cells == old(cells) && size == old(size)
      decreases ts, 1
    {
      hide Valid, Owned, Order;
      NothingOrdered();
      var iter := root;
      ghost var rest, i := ts, 0;
      assert ts[0..] == ts;
      while iter != 0
        invariant Valid() && cells == old(cells) && size == old(size) && i <= |ts| && rest == ts[i..]
        invariant Rep(cells, iter, rest) && Owned(rest) && queue + Order(rest) == old(queue) + Order(ts)
        decreases |rest|
      {
        OrderIs(rest);
        iter := FreeFirst(iter, rest);
        rest, i := rest[1..], i + 1;
      }
    }

    // -------------------------------------------------------------- parsing a block

    /** The first nodes of the old queue hold the first elements of the block. */
    ghost predicate Parsing(q: seq<nat>, c: seq<Cell>, nodes: seq<nat>, es: seq<Element>)
      reads this
    {
      && |nodes| <= |q| && nodes == q[..|nodes|] && queue == q[|nodes|..] && |cells| == |c| == size
      && Listed(cells, nodes, es) && Untouched(c, cells, q)
    }

    /** ogs_tlv_get and tlv_get_element: one more node at the end of the chain. */
    method ParseElement(data: Data, pos: nat, mode: Mode, prev: nat, ghost q: seq<nat>, ghost c: seq<Cell>,
                        ghost nodes: seq<nat>, ghost es: seq<Element>)
      returns (curr: nat, next: nat)
      requires Valid() && NoDup(q) && InRange(q, size) && Parsing(q, c, nodes, es)
               && prev == (if nodes == [] then 0 else nodes[|nodes| - 1])
      modifies this`head, this`avail, this`queue, this`cells, free, index
      ensures Valid() && size == old(size)
      ensures curr == 0 <==> old(queue) == []
      ensures if old(queue) == [] then curr == 0 && queue == []
              else curr == old(queue)[0] && Parsing(q, c, nodes + [curr], es + [GetElement(data, pos, mode)])
      ensures next == End(GetElement(data, pos, mode))
    {
      hide GetElement, Valid, Listed, Untouched, NoDup, InRange;
      var e := GetElement(data, pos, mode);
      next := End(e);
      ghost var before := cells;
      curr := Get();
      if curr != 0 {
        assert curr == q[|nodes|];
        LastInRange(q, nodes, size);
        if prev != 0 {
          SetCell(prev, cells[prev - 1].(next := curr));
        }
        SetCell(curr, Cell(0, 0, e));
        ListedMore(before, cells, nodes, es, curr, e, q);
        UntouchedMore(c, before, cells, q, nodes, curr);
      }
    }

    method SetCell(node: nat, cell: Cell)
      requires Valid() && 1 <= node <= size
      modifies this`cells
      ensures Valid() && |old(cells)| == size && cells == old(cells)[node - 1 := cell]
    {
      cells := cells[node - 1 := cell];
    }

    /** ogs_tlv_parse_block.  NULL if the last element does not end with the block; `aborted` if
        the pool runs dry. */
    method ParseBlock(data: Data, start: nat, length: nat, mode: Mode)
      returns (root: nat, aborted: bool, ghost nodes: seq<nat>)
      requires Valid()
      modifies this`head, this`tail, this`avail, this`queue, this`cells, free, index
      ensures Valid() && size == old(size)
      ensures aborted ==> queue == []
      ensures !aborted ==> (root == 0 <==> !Fits(data, start, start + length, mode)) && Untouched(old(cells), cells, old(queue))
      ensures !aborted && root != 0 ==>
                nodes != [] && root == nodes[0]
                && Parsing(old(queue), old(cells), nodes, Elements(data, start, start + length, mode))
      ensures !aborted && root == 0 ==> multiset(queue) == multiset(old(queue))
    {
      hide Valid, GetElement, Elements, NoDup, InRange, Untouched, Parsing, Fits, Ahead;
      ghost var q, c := queue, cells;
      aborted := false;
      var end := start + length;
      ValidQueue();
      StartParsing();
      var curr, pos := ParseElement(data, start, mode, 0, q, c, [], []);
      if curr == 0 {
        return 0, true, [];
      }
      root := curr;
      ghost var es := [] + [GetElement(data, start, mode)];
      nodes := [] + [curr];
      AheadFirst(curr, data, start, end, mode);
      while pos < end
        invariant Valid() && size == old(size) && Parsing(q, c, nodes, es)
                  && Ahead(nodes, es, root, curr, pos, data, start, end, mode)
        decreases end - pos
      {
        AheadNext(nodes, es, root, curr, pos, data, start, end, mode);
        ghost var e := GetElement(data, pos, mode);
        curr, pos := ParseElement(data, pos, mode, curr, q, c, nodes, es);
        if curr == 0 {
          return 0, true, [];
        }
        nodes, es := nodes + [curr], es + [e];
      }
      AheadEnd(nodes, es, root, curr, pos, data, start, end, mode);
      ParsingFacts(q, c, nodes, es);
      if pos != end {
        Discard(root, q, c, nodes, es);
        root := 0;
      }
    }

    lemma StartParsing()
      requires Valid()
      ensures Parsing(queue, cells, [], [])
    {
      hide Listed, Untouched;
      ListedNone(cells);
      NoneTouched(cells, queue);
    }

    lemma ParsingFacts(q: seq<nat>, c: seq<Cell>, nodes: seq<nat>, es: seq<Element>)
      requires InRange(q, size) && Parsing(q, c, nodes, es) && nodes != []
      ensures Untouched(c, cells, q) && nodes[0] != 0
    {
      hide Listed, Untouched;
      assert nodes[0] == q[0];
    }

    /** The nodes of a block that does not fit go back. */
    method Discard(root: nat, ghost q: seq<nat>, ghost c: seq<Cell>, ghost nodes: seq<nat>, ghost es: seq<Element>)
      requires Valid() && NoDup(q) && Parsing(q, c, nodes, es) && nodes != [] && root == nodes[0]
      modifies this`tail, this`avail, this`queue, free, index
      ensures Valid() && size == old(size) && multiset(queue) == multiset(q) && Untouched(c, cells, q)
    {
      hide Valid, Listed, Untouched, Rep, NoDup, InRange;
      ListedRep(cells, nodes, es);
      assert q == nodes + q[|nodes|..];
      SplitNoDup(nodes, q[|nodes|..]);
      FreeAll(root, Plain(nodes));
    }

    lemma ValidQueue()
      requires Valid()
      ensures NoDup(queue) && InRange(queue, size) && |cells| == size
    {}
  }

  // ---------------------------------------------------------------- chains and trees of nodes

  /** The nodes of a chain, each with the nodes of its embedded block. */
  datatype Tree = Tree(node: nat, kids: seq<Tree>)

  /** The chain that starts at p. */
  ghost predicate Rep(cells: seq<Cell>, p: nat, ts: seq<Tree>)
    decreases ts
  {
    if ts == [] then p == 0
    else
      && p == ts[0].node && 1 <= p <= |cells|
      && (cells[p - 1].embedded == 0 <==> ts[0].kids == [])
      && Rep(cells, cells[p - 1].embedded, ts[0].kids)
      && Rep(cells, cells[p - 1].next, ts[1..])
  }

  /** The nodes in the order in which ogs_tlv_free_all frees them. */
  function Order(ts: seq<Tree>): seq<nat> {
    if ts == [] then [] else Order(ts[0].kids) + [ts[0].node] + Order(ts[1..])
  }

  lemma {:induction false} RepRange(cells: seq<Cell>, p: nat, ts: seq<Tree>)
    requires Rep(cells, p, ts)
    ensures InRange(Order(ts), |cells|)
    decreases ts
  {
    if ts != [] {
      RepRange(cells, cells[p - 1].embedded, ts[0].kids);
      RepRange(cells, cells[p - 1].next, ts[1..]);
    }
  }

  /** A chain survives changes of other nodes. */
  lemma {:induction false} RepFrame(cells: seq<Cell>, cells': seq<Cell>, p: nat, ts: seq<Tree>)
    requires Rep(cells, p, ts) && |cells'| == |cells| && forall i :: 0 <= i < |cells| && i + 1 in Order(ts) ==>
               cells'[i] == cells[i]
    ensures Rep(cells', p, ts)
    decreases ts
  {
    if ts != [] {
      assert p in Order(ts);
      assert p - 1 + 1 == p;
      RepFrame(cells, cells', cells[p - 1].embedded, ts[0].kids);
      RepFrame(cells, cells', cells[p - 1].next, ts[1..]);
    }
  }

  lemma DisjointParts(ts: seq<Tree>)
    requires ts != [] && NoDup(Order(ts))
    ensures NoDup(Order(ts[0].kids)) && NoDup(Order(ts[1..]))
    ensures ts[0].node !in Order(ts[0].kids) && ts[0].node !in Order(ts[1..])
    ensures forall k :: k in Order(ts[0].kids) ==> k !in Order(ts[1..])
  {
    var a, n, b := Order(ts[0].kids), ts[0].node, Order(ts[1..]);
    hide Order;
    SplitNoDup(a + [n], b);
    SplitNoDup(a, [n]);
    assert (a + [n])[|a|] == n;
    assert forall k :: k in a ==> k in a + [n];
  }

  lemma OrderIs(ts: seq<Tree>)
    requires ts != []
    ensures Order(ts) == (Order(ts[0].kids) + [ts[0].node]) + Order(ts[1..])
    ensures forall k :: k in Order(ts[0].kids) || k == ts[0].node || k in Order(ts[1..]) <==> k in Order(ts)
  {}

  lemma NothingOrdered()
    ensures Order([]) == []
  {}

  lemma OrderRange(ts: seq<Tree>, n: nat)
    requires ts != [] && InRange(Order(ts), n)
    ensures InRange(Order(ts[0].kids), n) && 1 <= ts[0].node <= n && InRange(Order(ts[1..]), n)
  {
    var a, k, b := Order(ts[0].kids), ts[0].node, Order(ts[1..]);
    hide Order, InRange;
    RangeParts(a + [k], b, n);
    RangeParts(a, [k], n);
    OneInRange(k, n);
  }

  lemma RangeParts(a: seq<nat>, b: seq<nat>, n: nat)
    requires InRange(a + b, n)
    ensures InRange(a, n) && InRange(b, n)
  {
    var s := a + b;
    forall i | 0 <= i < |a| ensures 1 <= a[i] <= n { assert s[i] == a[i]; }
    forall i | 0 <= i < |b| ensures 1 <= b[i] <= n { assert s[|a| + i] == b[i]; }
  }

  lemma OneInRange(k: nat, n: nat)
    requires InRange([k], n)
    ensures 1 <= k <= n
  {
    assert [k][0] == k;
  }

  /** Nodes that were in use are as they were. */
  ghost predicate Untouched(cells: seq<Cell>, cells': seq<Cell>, queue: seq<nat>) {
    |cells'| == |cells| && forall i :: 0 <= i < |cells| && i + 1 !in queue ==> cells'[i] == cells[i]
  }

  ghost function NextIn(nodes: seq<nat>, i: nat): nat {
    if i + 1 < |nodes| then nodes[i + 1] else 0
  }

  /** A node without a block. */
  ghost function ListCell(next: nat, e: Element): Cell { Cell(next, 0, e) }

  lemma ListCellIs(next: nat, e: Element, n: nat)
    ensures ListCell(next, e).(next := n) == ListCell(n, e) && ListCell(next, e) == Cell(next, 0, e)
  {}

  /** A plain chain of nodes with these elements. */
  ghost predicate Listed(cells: seq<Cell>, nodes: seq<nat>, es: seq<Element>) {
    && |nodes| == |es| && NoDup(nodes) && InRange(nodes, |cells|)
    && forall i :: 0 <= i < |nodes| ==> cells[nodes[i] - 1] == ListCell(NextIn(nodes, i), es[i])
  }

  lemma NoneTouched(cells: seq<Cell>, q: seq<nat>)
    ensures Untouched(cells, cells, q)
  {}

  lemma ListedNone(cells: seq<Cell>)
    ensures Listed(cells, [], [])
  {}

  lemma LastInRange(q: seq<nat>, nodes: seq<nat>, n: nat)
    requires |nodes| < |q| && nodes == q[..|nodes|] && InRange(q, n)
    ensures 1 <= q[|nodes|] <= n && (nodes != [] ==> 1 <= nodes[|nodes| - 1] <= n)
  {}

  /** The cells after a node was taken, linked to the last one and filled. */
  ghost function Linked(before: seq<Cell>, nodes: seq<nat>, curr: nat, e: Element): seq<Cell>
    requires 1 <= curr <= |before| && (nodes != [] ==> 1 <= nodes[|nodes| - 1] <= |before|)
  {
    var zeroed := before[curr - 1 := ZEROED];
    var last := if nodes == [] then 0 else nodes[|nodes| - 1];
    (if last == 0 then zeroed else zeroed[last - 1 := zeroed[last - 1].(next := curr)])[curr - 1 := Cell(0, 0, e)]
  }

  lemma ListedMore(before: seq<Cell>, after: seq<Cell>, nodes: seq<nat>, es: seq<Element>, curr: nat, e: Element,
                   q: seq<nat>)
    requires |nodes| < |q| && nodes == q[..|nodes|] && curr == q[|nodes|] && NoDup(q) && InRange(q, |before|)
    requires Listed(before, nodes, es)
    requires 1 <= curr <= |before| && (nodes != [] ==> 1 <= nodes[|nodes| - 1] <= |before|)
             && after == Linked(before, nodes, curr, e)
    ensures Listed(after, nodes + [curr], es + [e])
  {
    hide ListCell, NoDup, InRange, Linked, NextIn;
    var r := nodes + [curr];
    assert r == q[..|nodes| + 1];
    PrefixOk(q, |nodes| + 1, |before|);
    ListedAt(before, after, nodes, es, curr, e, q, |nodes|);
    forall i | 0 <= i < |r| ensures after[r[i] - 1] == ListCell(NextIn(r, i), (es + [e])[i]) {
      ListedAt(before, after, nodes, es, curr, e, q, i);
    }
  }

  lemma ListedAt(before: seq<Cell>, after: seq<Cell>, nodes: seq<nat>, es: seq<Element>, curr: nat, e: Element,
                 q: seq<nat>, i: nat)
    requires |nodes| < |q| && nodes == q[..|nodes|] && curr == q[|nodes|] && NoDup(q) && InRange(q, |before|)
    requires Listed(before, nodes, es)
    requires 1 <= curr <= |before| && (nodes != [] ==> 1 <= nodes[|nodes| - 1] <= |before|)
             && after == Linked(before, nodes, curr, e)
    requires i <= |nodes|
    ensures 1 <= q[i] <= |before| == |after| && after[q[i] - 1] == ListCell(NextIn(nodes + [curr], i), (es + [e])[i])
  {
    hide ListCell, NoDup, InRange, Linked;
    var n := |nodes|;
    if n > 0 { Differ(q, n - 1, n); }
    LinkedAt(before, nodes, curr, e);
    RangeOf(q, i, |before|);
    if i < n {
      Differ(q, i, n);
      assert nodes[i] == q[i];
      ListCellIs(NextIn(nodes, i), es[i], curr);
      if i < n - 1 { Differ(q, i, n - 1); }
    } else {
      ListCellIs(0, e, 0);
    }
  }

  lemma LinkedAt(before: seq<Cell>, nodes: seq<nat>, curr: nat, e: Element)
    requires 1 <= curr <= |before|
             && (nodes != [] ==> 1 <= nodes[|nodes| - 1] <= |before| && nodes[|nodes| - 1] != curr)
    ensures var after := Linked(before, nodes, curr, e);
            |after| == |before| && after[curr - 1] == Cell(0, 0, e)
            && forall k :: 0 <= k < |before| && k + 1 != curr ==>
                 after[k] == if nodes != [] && k + 1 == nodes[|nodes| - 1] then before[k].(next := curr) else before[k]
  {}

  lemma PrefixOk(q: seq<nat>, k: nat, n: nat)
    requires NoDup(q) && InRange(q, n) && k <= |q|
    ensures NoDup(q[..k]) && InRange(q[..k], n) && forall i :: 0 <= i < k ==> 1 <= q[i] <= n
  {}

  lemma Differ(q: seq<nat>, i: nat, j: nat)
    requires NoDup(q) && i < j < |q|
    ensures q[i] != q[j]
  {}

  lemma UntouchedMore(c: seq<Cell>, before: seq<Cell>, after: seq<Cell>, q: seq<nat>, nodes: seq<nat>, curr: nat)
    requires |nodes| < |q| && nodes == q[..|nodes|] && curr == q[|nodes|] && Untouched(c, before, q)
             && |before| == |after|
    requires forall i :: 0 <= i < |c| && i + 1 != curr && (nodes == [] || i + 1 != nodes[|nodes| - 1]) ==>
               after[i] == before[i]
    ensures Untouched(c, after, q)
  {
    assert curr in q;
    if nodes != [] { assert q[|nodes| - 1] in q; }
  }

  function Plain(nodes: seq<nat>): (ts: seq<Tree>)
    ensures |ts| == |nodes|
  {
    seq(|nodes|, i requires 0 <= i < |nodes| => Tree(nodes[i], []))
  }

  /** A plain chain as a chain of trees. */
  lemma {:induction false} PlainOrder(nodes: seq<nat>)
    ensures Order(Plain(nodes)) == nodes
    decreases |nodes|
  {
    if nodes != [] {
      assert Plain(nodes)[1..] == Plain(nodes[1..]);
      PlainOrder(nodes[1..]);
      NothingOrdered();
    }
  }

  lemma ListedRep(cells: seq<Cell>, nodes: seq<nat>, es: seq<Element>)
    requires Listed(cells, nodes, es)
    ensures Rep(cells, if nodes == [] then 0 else nodes[0], Plain(nodes)) && Order(Plain(nodes)) == nodes
  {
    PlainOrder(nodes);
    RepFrom(cells, nodes, es, 0);
    assert Plain(nodes)[0..] == Plain(nodes);
  }

  lemma {:induction false} RepFrom(cells: seq<Cell>, nodes: seq<nat>, es: seq<Element>, i: nat)
    requires Listed(cells, nodes, es) && i <= |nodes|
    ensures Rep(cells, if i == |nodes| then 0 else nodes[i], Plain(nodes)[i..])
    decreases |nodes| - i
  {
    hide ListCell, NoDup, InRange;
    var ts := Plain(nodes);
    if i < |nodes| {
      RepFrom(cells, nodes, es, i + 1);
      RangeOf(nodes, i, |cells|);
      ListCellIs(NextIn(nodes, i), es[i], 0);
      assert ts[i..][0] == ts[i] && ts[i..][1..] == ts[i + 1..];
    }
  }

  lemma RangeOf(s: seq<nat>, i: nat, n: nat)
    requires InRange(s, n) && i < |s|
    ensures 1 <= s[i] <= n
  {}

  lemma ElementsStep(data: Data, pos: nat, end: nat, mode: Mode)
    ensures var e := GetElement(data, pos, mode);
            Elements(data, pos, end, mode) == [e] + (if End(e) < end then Elements(data, End(e), end, mode) else [])
    ensures End(GetElement(data, pos, mode)) > pos
  {}

  /** The elements of a block up to `pos`, which is where the last of them ends. */
  ghost predicate Ahead(nodes: seq<nat>, es: seq<Element>, root: nat, curr: nat, pos: nat, data: Data, start: nat,
                        end: nat, mode: Mode) {
    && nodes != [] && root == nodes[0] && curr == nodes[|nodes| - 1]
    && es != [] && pos == End(es[|es| - 1])
    && Elements(data, start, end, mode) == es + (if pos < end then Elements(data, pos, end, mode) else [])
  }

  lemma AheadFirst(curr: nat, data: Data, start: nat, end: nat, mode: Mode)
    ensures var e := GetElement(data, start, mode); Ahead([] + [curr], [] + [e], curr, curr, End(e), data, start, end, mode)
  {
    hide Elements, GetElement;
    ElementsStep(data, start, end, mode);
  }

  lemma AheadNext(nodes: seq<nat>, es: seq<Element>, root: nat, curr: nat, pos: nat, data: Data, start: nat, end: nat,
                  mode: Mode)
    requires Ahead(nodes, es, root, curr, pos, data, start, end, mode) && pos < end
    ensures curr == nodes[|nodes| - 1] && nodes != [] && End(GetElement(data, pos, mode)) > pos
    ensures var e := GetElement(data, pos, mode);
            forall n :: Ahead(nodes + [n], es + [e], root, n, End(e), data, start, end, mode)
  {
    hide Elements, GetElement;
    ElementsStep(data, pos, end, mode);
  }

  lemma AheadEnd(nodes: seq<nat>, es: seq<Element>, root: nat, curr: nat, pos: nat, data: Data, start: nat, end: nat,
                 mode: Mode)
    requires Ahead(nodes, es, root, curr, pos, data, start, end, mode) && pos >= end
    ensures es == Elements(data, start, end, mode) && nodes != [] && root == nodes[0] && (Fits(data, start, end, mode) <==> pos == end)
  {
    hide Elements, GetElement;
  }

  lemma SplitNoDup(a: seq<nat>, b: seq<nat>)
    requires NoDup(a + b)
    ensures NoDup(a) && NoDup(b) && forall k :: k in a ==> k !in b
  {
    var s := a + b;
    forall i, j | 0 <= i < j < |a| ensures a[i] != a[j] { assert s[i] != s[j]; }
    forall i, j | 0 <= i < j < |b| ensures b[i] != b[j] { assert s[|a| + i] != s[|a| + j]; }
    forall k | k in a ensures k !in b {
      var i :| 0 <= i < |a| && a[i] == k;
      forall j | 0 <= j < |b| ensures b[j] != k { assert s[i] != s[|a| + j]; }
    }
  }

  lemma TwiceIn(b: seq<nat>, i: nat, j: nat)
    requires i < j < |b| && b[i] == b[j]
    ensures multiset(b)[b[j]] >= 2
  {
    assert b == b[..j] + [b[j]] + b[j + 1..];
    assert b[..j][i] == b[j];
    assert b[j] in multiset(b[..j]);
    assert multiset(b) == multiset(b[..j]) + multiset{b[j]} + multiset(b[j + 1..]);
  }

  lemma {:induction false} AtMostOnce(s: seq<nat>, k: nat)
    requires NoDup(s)
    ensures multiset(s)[k] == (if k in s then 1 else 0)
    decreases |s|
  {
    if s != [] {
      var r := s[..|s| - 1];
      assert s == r + [s[|s| - 1]];
      AtMostOnce(r, k);
    }
  }

  // ---------------------------------------------------------------- attaching embedded blocks

  /** Giving node i of a chain an embedded block. */
  lemma {:induction false} Attach(cells: seq<Cell>, cells': seq<Cell>, root: nat, ts: seq<Tree>, i: nat, p: nat,
                                  kids: seq<Tree>)
    requires Rep(cells, root, ts) && i < |ts| && ts[i].kids == [] && kids != [] && NoDup(Order(ts))
             && |cells'| == |cells|
    requires p != 0 && Rep(cells', p, kids) && ts[i].node in Order(ts) && 1 <= ts[i].node <= |cells|
    requires forall k :: 0 <= k < |cells| && k + 1 in Order(ts) ==>
               cells'[k] == if k + 1 == ts[i].node then cells[k].(embedded := p) else cells[k]
    ensures Rep(cells', root, ts[i := Tree(ts[i].node, kids)])
    decreases ts
  {
    hide Order, NoDup;
    DisjointParts(ts);
    OrderIs(ts);
    var t, rest := ts[0], ts[1..];
    assert root - 1 + 1 == root && root in Order(ts);
    if i == 0 {
      assert ts[0 := Tree(t.node, kids)][1..] == rest;
      RepFrame(cells, cells', cells[root - 1].next, rest);
    } else {
      assert ts[i := Tree(ts[i].node, kids)][1..] == rest[i - 1 := Tree(rest[i - 1].node, kids)];
      NodeIn(rest, i - 1);
      RepFrame(cells, cells', cells[root - 1].embedded, t.kids);
      Attach(cells, cells', cells[root - 1].next, rest, i - 1, p, kids);
    }
  }

  lemma {:induction false} NodeIn(ts: seq<Tree>, i: nat)
    requires i < |ts|
    ensures ts[i].node in Order(ts)
    decreases |ts|
  {
    OrderIs(ts);
    if i > 0 { NodeIn(ts[1..], i - 1); }
  }

  lemma {:induction false} AttachOrder(ts: seq<Tree>, i: nat, kids: seq<Tree>)
    requires i < |ts| && ts[i].kids == []
    ensures multiset(Order(ts[i := Tree(ts[i].node, kids)])) == multiset(Order(ts)) + multiset(Order(kids))
    decreases |ts|
  {
    hide Order;
    var rest, ts' := ts[1..], ts[i := Tree(ts[i].node, kids)];
    OrderCounts(ts); OrderCounts(ts');
    NothingOrdered();
    if i == 0 {
      assert ts'[1..] == rest;
    } else {
      assert ts'[1..] == rest[i - 1 := Tree(rest[i - 1].node, kids)];
      AttachOrder(rest, i - 1, kids);
    }
  }

  lemma OrderCounts(ts: seq<Tree>)
    requires ts != []
    ensures multiset(Order(ts)) == multiset(Order(ts[0].kids)) + multiset{ts[0].node} + multiset(Order(ts[1..]))
  {
    hide Order;
    OrderIs(ts);
  }

  lemma QueueFacts(pool: Pool)
    requires pool.Valid()
    ensures NoDup(pool.queue) && |pool.queue| == pool.avail
  {}

  lemma SameSize(a: seq<nat>, b: seq<nat>)
    requires multiset(a) == multiset(b)
    ensures |a| == |b|
  {
    assert |a| == |multiset(a)| == |multiset(b)| == |b|;
  }
}
