/** Chains of TLV nodes: adding at the end, embedding, measuring and rendering. */
module TlvNodes {
  import opened Sequences
  import opened Arith
  import opened Tlv
  import opened TlvPool

  // ---------------------------------------------------------------- what a chain stands for

  /** The chain holds these elements. */
  ghost predicate Carries(cells: seq<Cell>, ts: seq<Tree>, vs: seq<Tlv>)
    decreases ts
  {
    if ts == [] then vs == []
    else vs != [] && CarriesOne(cells, ts[0], vs[0]) && Carries(cells, ts[1..], vs[1..])
  }

  ghost predicate CarriesOne(cells: seq<Cell>, t: Tree, v: Tlv)
    decreases t
  {
    && 1 <= t.node <= |cells|
    && var cell := cells[t.node - 1];
       cell.element.mode == v.mode && cell.element.typ == v.typ && cell.element.instance == v.instance
       && match v.value
          case Leaf(bytes) => t.kids == [] && cell.embedded == 0 && cell.bytes == bytes
          && cell.element.length == |bytes|
          case Block(elements) => t.kids != [] && Carries(cells, t.kids, elements)
  }

  /** The same but for links and for the lengths of blocks. */
  ghost predicate SameContent(a: Cell, b: Cell) {
    && a.element.mode == b.element.mode && a.element.typ == b.element.typ && a.element.instance == b.element.instance
    && a.bytes == b.bytes && (a.embedded == 0 ==> b.embedded == 0 && b.element.length == a.element.length)
  }

  lemma {:induction false} CarriesFrame(c: seq<Cell>, c': seq<Cell>, ts: seq<Tree>, vs: seq<Tlv>)
    requires Carries(c, ts, vs) && |c'| == |c|
    requires forall i :: 0 <= i < |c| && i + 1 in Order(ts) ==> SameContent(c[i], c'[i])
    ensures Carries(c', ts, vs)
    decreases ts
  {
    if ts != [] {
      hide Order, SameContent;
      OrderIs(ts);
      CarriesOneFrame(c, c', ts[0], vs[0]);
      CarriesFrame(c, c', ts[1..], vs[1..]);
    }
  }

  lemma {:induction false} CarriesOneFrame(c: seq<Cell>, c': seq<Cell>, t: Tree, v: Tlv)
    requires CarriesOne(c, t, v) && |c'| == |c|
    requires forall i :: 0 <= i < |c| && (i + 1 in Order(t.kids) || i + 1 == t.node) ==> SameContent(c[i], c'[i])
    ensures CarriesOne(c', t, v)
    decreases t
  {
    hide Order;
    assert SameContent(c[t.node - 1], c'[t.node - 1]) by { assert t.node - 1 + 1 == t.node; }
    if v.value.Block? { CarriesFrame(c, c', t.kids, v.value.elements); }
  }

  lemma {:induction false} CarriesJoin(c: seq<Cell>, a: seq<Tree>, b: seq<Tree>, va: seq<Tlv>, vb: seq<Tlv>)
    requires Carries(c, a, va) && Carries(c, b, vb)
    ensures Carries(c, a + b, va + vb)
    decreases |a|
  {
    hide CarriesOne;
    if a == [] {
      assert a + b == b && va + vb == vb;
    } else {
      assert (a + b)[0] == a[0] && (a + b)[1..] == a[1..] + b;
      assert (va + vb)[0] == va[0] && (va + vb)[1..] == va[1..] + vb;
      CarriesJoin(c, a[1..], b, va[1..], vb);
    }
  }

  lemma CarriesLast(c: seq<Cell>, ts: seq<Tree>, t: Tree, vs: seq<Tlv>, v: Tlv)
    requires Carries(c, ts, vs) && CarriesOne(c, t, v)
    ensures Carries(c, ts + [t], vs + [v])
  {
    hide CarriesOne;
    assert Carries(c, [t], [v]) by { assert [t][1..] == [] && [v][1..] == []; }
    CarriesJoin(c, ts, [t], vs, [v]);
  }

  lemma {:induction false} CarriesLength(c: seq<Cell>, ts: seq<Tree>, vs: seq<Tlv>)
    requires Carries(c, ts, vs)
    ensures |ts| == |vs|
    decreases |ts|
  {
    hide CarriesOne;
    if ts != [] { CarriesLength(c, ts[1..], vs[1..]); }
  }

  lemma {:induction false} CarriesAt(c: seq<Cell>, ts: seq<Tree>, vs: seq<Tlv>, i: nat)
    requires Carries(c, ts, vs) && i < |ts|
    ensures |ts| == |vs| && CarriesOne(c, ts[i], vs[i])
    decreases |ts|
  {
    hide CarriesOne;
    CarriesLength(c, ts, vs);
    if i > 0 { CarriesAt(c, ts[1..], vs[1..], i - 1); }
  }

  // ---------------------------------------------------------------- orders

  lemma {:induction false} OrderJoin(a: seq<Tree>, b: seq<Tree>)
    ensures Order(a + b) == Order(a) + Order(b)
    decreases |a|
  {
    if a == [] {
      assert a + b == b;
      NothingOrdered();
    } else {
      assert (a + b)[0] == a[0] && (a + b)[1..] == a[1..] + b;
      OrderJoin(a[1..], b);
    }
  }

  lemma OrderLast(ts: seq<Tree>, t: Tree)
    ensures Order(ts + [t]) == Order(ts) + (Order(t.kids) + [t.node])
  {
    OrderJoin(ts, [t]);
    assert Order([t]) == Order(t.kids) + [t.node] by { assert [t][1..] == []; NothingOrdered(); }
  }

  // ---------------------------------------------------------------- adding a node

  /** A chain under construction: the first node knows the last, and every node the first. */
  ghost predicate Chained(cells: seq<Cell>, root: nat, ts: seq<Tree>) {
    && Rep(cells, root, ts)
    && (ts != [] ==> 1 <= root <= |cells| && root == ts[0].node && cells[root - 1].tail == ts[|ts| - 1].node)
    && forall i :: 0 <= i < |ts| ==> 1 <= ts[i].node <= |cells| && cells[ts[i].node - 1].head == root
  }

  /** The cells after node n has been filled and put behind the last node of the chain that
      starts at h, or made a chain of its own. */
  function Behind(c: seq<Cell>, h: nat, n: nat, cell: Cell): seq<Cell>
    requires 1 <= n <= |c| && (h != 0 ==> 1 <= h <= |c| && 1 <= c[h - 1].tail <= |c| && h != n && c[h - 1].tail != n)
  {
    if h == 0 then c[n - 1 := cell.(head := n, tail := n)]
    else
      var filled := c[n - 1 := cell.(head := h)];
      var t := c[h - 1].tail;
      var linked := filled[t - 1 := filled[t - 1].(next := n)];
      linked[h - 1 := linked[h - 1].(tail := n)]
  }

  /** Node n becomes the last of the chain that starts at h. */
  method LinkBehind(pool: Pool, h: nat, n: nat, ghost cell: Cell, ghost c: seq<Cell>)
    requires pool.Valid() && 1 <= n <= |c| && 1 <= h <= |c| && 1 <= c[h - 1].tail <= |c| && h != n && c[h - 1].tail != n
    requires pool.cells == c[n - 1 := cell]
    modifies pool`cells
    ensures pool.Valid() && pool.cells == Behind(c, h, n, cell)
  {
    hide Pool.Valid;
    pool.ValidQueue();
    pool.SetCell(n, pool.cells[n - 1].(head := h));
    var t := pool.cells[h - 1].tail;
    pool.SetCell(t, pool.cells[t - 1].(next := n));
    pool.SetCell(h, pool.cells[h - 1].(tail := n));
  }

  /** ogs_tlv_add: `head` is any node of the chain, or null for a new one. */
  method TlvAdd(pool: Pool, head: nat, element: Element, bytes: seq<Byte>) returns (node: nat)
    requires pool.Valid() && (head != 0 ==> InChain(pool, head))
    modifies pool`head, pool`avail, pool`queue, pool`cells, pool.free, pool.index
    ensures pool.Valid() && pool.size == old(pool.size)
    ensures if old(pool.queue) == [] then node == 0 && pool.queue == [] else
              node == old(pool.queue)[0] && pool.queue == old(pool.queue)[1..] && 1 <= node <= |old(pool.cells)|
              && old(head != 0 ==> HeadApart(pool, head, node))
              && pool.cells == Behind(old(pool.cells), if head == 0 then 0 else old(pool.cells)[head - 1].head, node, Cell(0, 0, element, 0, 0, 0, bytes))
  {
    hide Pool.Valid;
    ghost var c, q := pool.cells, pool.queue;
    pool.ValidQueue();
    node := pool.Get();
    if node == 0 {
      return;
    }
    InQueue(q);
    pool.SetCell(node, Cell(0, 0, element, 0, 0, 0, bytes));
    if head == 0 {
      pool.SetCell(node, pool.cells[node - 1].(head := node, tail := node));
    } else {
      var h := pool.cells[head - 1].head;
      LinkBehind(pool, h, node, Cell(0, 0, element, 0, 0, 0, bytes), c);
    }
  }

  /** A node in use, in a chain whose first and last nodes are in use. */
  ghost predicate InChain(pool: Pool, head: nat)
    reads pool
  {
    && 1 <= head <= |pool.cells| && head !in pool.queue
    && var h := pool.cells[head - 1].head;
       1 <= h <= |pool.cells| && h !in pool.queue && 1 <= pool.cells[h - 1].tail <= |pool.cells|
       && pool.cells[h - 1].tail !in pool.queue
  }

  ghost predicate HeadApart(pool: Pool, head: nat, node: nat)
    reads pool
  {
    && 1 <= head <= |pool.cells|
    && var h := pool.cells[head - 1].head;
       1 <= h <= |pool.cells| && 1 <= pool.cells[h - 1].tail <= |pool.cells| && h != node
       && pool.cells[h - 1].tail != node
  }

  lemma InQueue(q: seq<nat>)
    requires q != []
    ensures q[0] in q
  {}

  /** ogs_tlv_embed: a node behind those that `parent` has embedded. */
  method TlvEmbed(pool: Pool, parent: nat, element: Element, bytes: seq<Byte>) returns (node: nat)
    requires pool.Valid() && HasBlock(pool, parent)
    modifies pool`head, pool`avail, pool`queue, pool`cells, pool.free, pool.index
    ensures pool.Valid() && pool.size == old(pool.size)
    ensures if old(pool.queue) == [] then node == 0 && pool.queue == [] else
              node == old(pool.queue)[0] && pool.queue == old(pool.queue)[1..] && 1 <= node <= |old(pool.cells)|
              && old(BlockApart(pool, parent, node))
              && pool.cells == Within(old(pool.cells), parent, node, Cell(0, 0, element, 0, 0, 0, bytes))
  {
    hide Pool.Valid;
    ghost var c, q := pool.cells, pool.queue;
    pool.ValidQueue();
    node := pool.Get();
    if node == 0 {
      return;
    }
    InQueue(q);
    pool.SetCell(node, Cell(0, 0, element, 0, 0, 0, bytes));
    if pool.cells[parent - 1].embedded == 0 {
      pool.SetCell(node, pool.cells[node - 1].(head := node, tail := node));
      pool.SetCell(parent, pool.cells[parent - 1].(embedded := node));
      pool.SetCell(node, pool.cells[node - 1].(parent := parent));
    } else {
      var h := pool.cells[parent - 1].embedded;
      LinkBehind(pool, h, node, Cell(0, 0, element, 0, 0, 0, bytes), c);
    }
  }

  /** The cells after node n has been filled and put behind those embedded in `parent`. */
  function Within(c: seq<Cell>, parent: nat, n: nat, cell: Cell): seq<Cell>
    requires 1 <= n <= |c| && 1 <= parent <= |c| && parent != n
    requires var h := c[parent - 1].embedded; h != 0 ==>
               1 <= h <= |c| && 1 <= c[h - 1].tail <= |c| && h != n && c[h - 1].tail != n
  {
    var h := c[parent - 1].embedded;
    if h == 0 then c[n - 1 := cell.(head := n, tail := n, parent := parent)][parent - 1 := c[parent - 1].(embedded := n)]
    else Behind(c, h, n, cell)
  }

  ghost predicate HasBlock(pool: Pool, parent: nat)
    reads pool
  {
    && 1 <= parent <= |pool.cells| && parent !in pool.queue
    && var h := pool.cells[parent - 1].embedded;
       h != 0 ==>
         1 <= h <= |pool.cells| && h !in pool.queue && 1 <= pool.cells[h - 1].tail <= |pool.cells|
         && pool.cells[h - 1].tail !in pool.queue
  }

  ghost predicate BlockApart(pool: Pool, parent: nat, node: nat)
    reads pool
  {
    && 1 <= parent <= |pool.cells| && parent != node
    && var h := pool.cells[parent - 1].embedded;
       h != 0 ==>
         1 <= h <= |pool.cells| && 1 <= pool.cells[h - 1].tail <= |pool.cells| && h != node
         && pool.cells[h - 1].tail != node
  }

  // ---------------------------------------------------------------- the chain grows

  /** The same links at the nodes of a chain. */
  lemma {:induction false} RepLinks(c: seq<Cell>, c': seq<Cell>, p: nat, ts: seq<Tree>)
    requires Rep(c, p, ts) && |c'| == |c|
    requires forall i :: 0 <= i < |c| && i + 1 in Order(ts) ==>
               c'[i].next == c[i].next && c'[i].embedded == c[i].embedded
    ensures Rep(c', p, ts)
    decreases ts
  {
    if ts != [] {
      hide Order;
      OrderIs(ts);
      assert p - 1 + 1 == p;
      RepLinks(c, c', c[p - 1].embedded, ts[0].kids);
      RepLinks(c, c', c[p - 1].next, ts[1..]);
    }
  }

  /** Only the last node of the chain has a new link: to node n. */
  ghost predicate NextAfter(c: seq<Cell>, c': seq<Cell>, ts: seq<Tree>, n: nat)
    requires ts != []
  {
    |c'| == |c| && forall i :: 0 <= i < |c| && i + 1 in Order(ts) ==>
      c'[i].embedded == c[i].embedded && (c'[i].next == if i + 1 == ts[|ts| - 1].node then n else c[i].next)
  }

  /** One more node behind the last. */
  lemma {:induction false} RepAppend(c: seq<Cell>, c': seq<Cell>, p: nat, ts: seq<Tree>, n: nat)
    requires Rep(c, p, ts) && ts != [] && NoDup(Order(ts)) && NextAfter(c, c', ts, n)
    requires 1 <= n <= |c| && c'[n - 1].next == 0 && c'[n - 1].embedded == 0
    ensures Rep(c', p, ts + [Tree(n, [])])
    decreases |ts|
  {
    var added := Tree(n, []);
    hide Order, NoDup, NextAfter;
    NextParts(c, c', p, ts, n);
    DisjointParts(ts);
    assert (ts + [added])[0] == ts[0] && (ts + [added])[1..] == ts[1..] + [added];
    if |ts| == 1 {
      assert ts[1..] == [] && [] + [added] == [added];
      RepNew(c', n);
    } else {
      RepAppend(c, c', c[p - 1].next, ts[1..], n);
    }
  }

  lemma NextParts(c: seq<Cell>, c': seq<Cell>, p: nat, ts: seq<Tree>, n: nat)
    requires ts != [] && Rep(c, p, ts) && NoDup(Order(ts)) && NextAfter(c, c', ts, n)
    ensures |c'| == |c| && Rep(c', c[p - 1].embedded, ts[0].kids) && c'[p - 1].embedded == c[p - 1].embedded
    ensures |ts| == 1 ==> c'[p - 1].next == n
    ensures |ts| > 1 ==> c'[p - 1].next == c[p - 1].next && NextAfter(c, c', ts[1..], n)
  {
    hide Order, NoDup;
    var last := ts[|ts| - 1].node;
    OrderIs(ts);
    DisjointParts(ts);
    NodeIn(ts, 0);
    assert p - 1 + 1 == p;
    if |ts| > 1 {
      assert ts[1..][|ts| - 2] == ts[|ts| - 1];
      NodeIn(ts[1..], |ts| - 2);
    }
    assert last !in Order(ts[0].kids);
    RepLinks(c, c', c[p - 1].embedded, ts[0].kids);
  }

  lemma RepNew(c: seq<Cell>, n: nat)
    requires 1 <= n <= |c| && c[n - 1].next == 0 && c[n - 1].embedded == 0
    ensures Rep(c, n, [Tree(n, [])])
  {
    assert [Tree(n, [])][1..] == [];
  }

  /** What putting node n behind a chain does to the cells of the chain. */
  ghost predicate Extends(c: seq<Cell>, c': seq<Cell>, root: nat, ts: seq<Tree>, n: nat) {
    && |c'| == |c| && 1 <= n <= |c| && n !in Order(ts) && c'[n - 1].next == 0 && c'[n - 1].embedded == 0
    && c'[n - 1].head == (if ts == [] then n else root) && (ts == [] ==> c'[n - 1].tail == n)
    && forall i :: 0 <= i < |c| && i + 1 in Order(ts) ==>
         c'[i] == c[i].(next := if i + 1 == ts[|ts| - 1].node then n else c[i].next, tail := if i + 1 == root then n else c[i].tail)
  }

  lemma ChainedMore(c: seq<Cell>, c': seq<Cell>, root: nat, ts: seq<Tree>, n: nat)
    requires Chained(c, root, ts) && NoDup(Order(ts)) && Extends(c, c', root, ts, n)
    ensures Chained(c', if ts == [] then n else root, ts + [Tree(n, [])])
  {
    hide Order, NoDup, Rep;
    var ts' := ts + [Tree(n, [])];
    if ts == [] {
      assert ts' == [Tree(n, [])];
      RepNew(c', n);
    } else {
      assert NextAfter(c, c', ts, n);
      RepAppend(c, c', root, ts, n);
      NodeIn(ts, 0);
      assert root - 1 + 1 == root;
      forall i | 0 <= i < |ts'| ensures 1 <= ts'[i].node <= |c'| && c'[ts'[i].node - 1].head == root {
        if i < |ts| {
          NodeIn(ts, i);
          assert ts'[i] == ts[i] && ts[i].node - 1 + 1 == ts[i].node;
        }
      }
    }
  }

  lemma CarriesMore(c: seq<Cell>, c': seq<Cell>, root: nat, ts: seq<Tree>, vs: seq<Tlv>, n: nat, v: Tlv)
    requires Carries(c, ts, vs) && Extends(c, c', root, ts, n) && v.value.Leaf?
    requires c'[n - 1].element.mode == v.mode && c'[n - 1].element.typ == v.typ
             && c'[n - 1].element.instance == v.instance
    requires c'[n - 1].bytes == v.value.bytes && c'[n - 1].element.length == |v.value.bytes|
    ensures Carries(c', ts + [Tree(n, [])], vs + [v])
  {
    hide Order;
    CarriesFrame(c, c', ts, vs);
    CarriesLast(c', ts, Tree(n, []), vs, v);
  }

  // ---------------------------------------------------------------- one level of a message

  /** The cells and the free nodes when a level is begun, and the node that embeds it, if any. */
  datatype Start = Start(cells: seq<Cell>, queue: seq<nat>, parent: nat)

  /** The first node of the level, its nodes and elements, and how many nodes have been taken. */
  datatype Progress = Progress(root: nat, ts: seq<Tree>, vs: seq<Tlv>, took: nat)

  ghost predicate StartOk(l: Start) {
    && NoDup(l.queue) && InRange(l.queue, |l.cells|)
    && (l.parent != 0 ==> 1 <= l.parent <= |l.cells| && l.parent !in l.queue && l.cells[l.parent - 1].embedded == 0)
  }

  /** The nodes taken so far are those of the level, each once; nothing else has changed but the
      link from the embedding node. */
  ghost predicate Level(l: Start, c: seq<Cell>, q: seq<nat>, p: Progress) {
    && |c| == |l.cells| && p.took <= |l.queue| && q == l.queue[p.took..]
    && multiset(Order(p.ts)) == multiset(l.queue[..p.took])
    && Chained(c, p.root, p.ts) && Carries(c, p.ts, p.vs)
    && (l.parent != 0 ==> 1 <= l.parent <= |c| && c[l.parent - 1] == l.cells[l.parent - 1].(embedded := p.root))
    && forall i :: 0 <= i < |c| && i + 1 !in l.queue[..p.took] && i + 1 != l.parent ==> c[i] == l.cells[i]
  }

  lemma LevelStart(l: Start)
    requires StartOk(l)
    ensures Level(l, l.cells, l.queue, Progress(0, [], [], 0))
  {
    NothingOrdered();
    assert l.queue[..0] == [] && l.queue[0..] == l.queue;
  }

  /** The taken nodes and the nodes of the level are the same. */
  lemma LevelNodes(l: Start, c: seq<Cell>, q: seq<nat>, p: Progress)
    requires StartOk(l) && Level(l, c, q, p)
    ensures NoDup(Order(p.ts)) && forall k :: k in Order(p.ts) <==> k in l.queue[..p.took]
    ensures forall k :: k in Order(p.ts) ==> 1 <= k <= |c| && k !in q && k != l.parent
    ensures (p.root == if p.ts == [] then 0 else p.ts[0].node) && (p.root == 0 <==> p.ts == [])
  {
    hide Order, Chained, Carries, NoDup, InRange;
    var a := l.queue[..p.took];
    assert l.queue == a + q;
    SplitNoDup(a, q);
    SameNoDup(a, Order(p.ts));
    forall k ensures k in Order(p.ts) <==> k in a {
      assert k in multiset(Order(p.ts)) <==> k in multiset(a);
    }
    RangeParts(a, q, |l.cells|);
    InRangeAll(a, |l.cells|);
    ChainedRoot(c, p.root, p.ts);
    assert forall k :: k in a ==> k in l.queue;
  }

  lemma ChainedRoot(c: seq<Cell>, root: nat, ts: seq<Tree>)
    requires Chained(c, root, ts)
    ensures (root == if ts == [] then 0 else ts[0].node) && (root == 0 <==> ts == [])
  {}

  lemma InRangeAll(s: seq<nat>, n: nat)
    requires InRange(s, n)
    ensures forall k :: k in s ==> 1 <= k <= n
  {}

  lemma SameNoDup(a: seq<nat>, b: seq<nat>)
    requires NoDup(a) && multiset(a) == multiset(b)
    ensures NoDup(b)
  {
    forall i, j | 0 <= i < j < |b| ensures b[i] != b[j] {
      AtMostOnce(a, b[j]);
      if b[i] == b[j] { TwiceIn(b, i, j); }
    }
  }

  /** The cells after node n has been added to a level. */
  function Added(c: seq<Cell>, parent: nat, root: nat, n: nat, cell: Cell): seq<Cell>
    requires 1 <= n <= |c| && (parent != 0 ==> 1 <= parent <= |c| && parent != n && c[parent - 1].embedded == root)
    requires root != 0 ==> 1 <= root <= |c| && 1 <= c[root - 1].tail <= |c| && root != n && c[root - 1].tail != n
  {
    if parent == 0 then Behind(c, root, n, cell) else Within(c, parent, n, cell)
  }

  lemma AddedExtends(c: seq<Cell>, root: nat, ts: seq<Tree>, parent: nat, n: nat, cell: Cell)
    requires Chained(c, root, ts) && 1 <= n <= |c| && n !in Order(ts) && cell.next == 0 && cell.embedded == 0
    requires forall k :: k in Order(ts) ==> 1 <= k <= |c|
    requires parent != 0 ==> 1 <= parent <= |c| && parent != n && parent !in Order(ts) && c[parent - 1].embedded == root
    ensures root != 0 ==> 1 <= root <= |c| && 1 <= c[root - 1].tail <= |c| && root != n && c[root - 1].tail != n
    ensures var c' := Added(c, parent, root, n, cell);
            Extends(c, c', root, ts, n) && SameData(c'[n - 1], cell)
    ensures var c' := Added(c, parent, root, n, cell);
            forall i :: 0 <= i < |c| && i + 1 != n && i + 1 !in Order(ts) ==>
              c'[i] == if i + 1 == parent && root == 0 then c[i].(embedded := n) else c[i]
  {
    hide Order, Rep;
    ChainedRoot(c, root, ts);
    NothingOrdered();
    if ts != [] {
      NodeIn(ts, 0);
      NodeIn(ts, |ts| - 1);
    }
  }

  ghost predicate SameData(a: Cell, b: Cell) {
    a.element == b.element && a.bytes == b.bytes && a.embedded == b.embedded
  }

  ghost predicate Describes(cell: Cell, v: Tlv) {
    cell.element.mode == v.mode && cell.element.typ == v.typ && cell.element.instance == v.instance
    && v.value.Leaf? && cell.bytes == v.value.bytes && cell.element.length == |v.value.bytes|
    && cell.next == 0 && cell.embedded == 0
  }

  /** The progress after a node without a block. */
  function Plus1(p: Progress, n: nat, v: Tlv): Progress {
    Progress(if p.ts == [] then n else p.root, p.ts + [Tree(n, [])], p.vs + [v], p.took + 1)
  }

  /** A node can be added: it is free, and the ends of the chain are not. */
  lemma LevelReady(l: Start, c: seq<Cell>, q: seq<nat>, p: Progress)
    requires StartOk(l) && Level(l, c, q, p) && q != []
    ensures var n := q[0];
            1 <= n <= |c| && n !in Order(p.ts) && n == l.queue[p.took] && p.took < |l.queue| && n in q
            && (p.root != 0 ==> 1 <= p.root <= |c| && 1 <= c[p.root - 1].tail <= |c| && p.root != n && c[p.root - 1].tail != n)
            && (p.root != 0 ==> p.root !in q && c[p.root - 1].tail !in q)
            && (l.parent != 0 ==> 1 <= l.parent <= |c| && l.parent !in q && l.parent != n && c[l.parent - 1].embedded == p.root)
  {
    hide Order, Carries, NoDup, InRange, Rep;
    LevelNodes(l, c, q, p);
    NextNode(l.queue, |l.cells|, p.took);
    assert q[0] == l.queue[p.took];
    if p.ts != [] {
      NodeIn(p.ts, 0);
      NodeIn(p.ts, |p.ts| - 1);
    }
    assert forall k :: k in q ==> k in l.queue;
  }

  lemma LevelAdd(l: Start, c: seq<Cell>, q: seq<nat>, p: Progress, cell: Cell, v: Tlv)
    requires StartOk(l) && Level(l, c, q, p) && q != [] && Describes(cell, v)
    requires var n := q[0];
             1 <= n <= |c|
             && (p.root != 0 ==> 1 <= p.root <= |c| && 1 <= c[p.root - 1].tail <= |c| && p.root != n && c[p.root - 1].tail != n)
             && (l.parent != 0 ==> 1 <= l.parent <= |c| && l.parent != n && c[l.parent - 1].embedded == p.root)
    ensures Level(l, Added(c, l.parent, p.root, q[0], cell), q[1..], Plus1(p, q[0], v))
  {
    hide Order, Chained, Carries, NoDup, InRange, Extends, Added, Level;
    var n := q[0];
    LevelReady(l, c, q, p);
    LevelNodes(l, c, q, p);
    LevelChain(l, c, q, p);
    AddedExtends(c, p.root, p.ts, l.parent, n, cell);
    var c', p' := Added(c, l.parent, p.root, n, cell), Plus1(p, n, v);
    ChainedMore(c, c', p.root, p.ts, n);
    ExtendsSize(c, c', p.root, p.ts, n);
    CarriesMore(c, c', p.root, p.ts, p.vs, n, v);
    TookMore(l, c, q, p, n, v);
    LevelRest(l, c, q, p, c', n, v);
  }

  lemma LevelChain(l: Start, c: seq<Cell>, q: seq<nat>, p: Progress)
    requires Level(l, c, q, p)
    ensures Chained(c, p.root, p.ts) && Carries(c, p.ts, p.vs)
  {}

  lemma TookMore(l: Start, c: seq<Cell>, q: seq<nat>, p: Progress, n: nat, v: Tlv)
    requires Level(l, c, q, p) && p.took < |l.queue| && n == l.queue[p.took]
    ensures var p' := Plus1(p, n, v);
            q[1..] == l.queue[p'.took..] && multiset(Order(p'.ts)) == multiset(l.queue[..p'.took])
  {
    hide Order, Chained, Carries;
    OrderLast(p.ts, Tree(n, []));
    NothingOrdered();
    assert l.queue[..p.took + 1] == l.queue[..p.took] + [n];
  }

  lemma LevelRest(l: Start, c: seq<Cell>, q: seq<nat>, p: Progress, c': seq<Cell>, n: nat, v: Tlv)
    requires StartOk(l) && Level(l, c, q, p) && p.took < |l.queue| && n == l.queue[p.took] && |c'| == |c|
             && 1 <= n <= |c|
    requires l.parent != 0 ==> 1 <= l.parent <= |c| && l.parent != n && l.parent !in Order(p.ts)
    requires forall k :: k in Order(p.ts) <==> k in l.queue[..p.took]
    requires forall i :: 0 <= i < |c| && i + 1 != n && i + 1 !in Order(p.ts) ==>
               c'[i] == if i + 1 == l.parent && p.root == 0 then c[i].(embedded := n) else c[i]
    requires var p' := Plus1(p, n, v);
             Chained(c', p'.root, p'.ts) && Carries(c', p'.ts, p'.vs) && q[1..] == l.queue[p'.took..]
             && multiset(Order(p'.ts)) == multiset(l.queue[..p'.took]) && (p.root == 0 <==> p.ts == [])
    ensures Level(l, c', q[1..], Plus1(p, n, v))
  {
    hide Order, Chained, Carries, NoDup, InRange;
    var a, a' := l.queue[..p.took], l.queue[..p.took + 1];
    assert a' == a + [n];
    if l.parent != 0 { assert l.parent - 1 + 1 == l.parent; }
    forall i | 0 <= i < |c| && i + 1 !in a' && i + 1 != l.parent ensures c'[i] == l.cells[i] {
      assert i + 1 !in a && i + 1 != n;
    }
  }

  lemma ExtendsSize(c: seq<Cell>, c': seq<Cell>, root: nat, ts: seq<Tree>, n: nat)
    requires Extends(c, c', root, ts, n)
    ensures |c'| == |c|
  {}

  lemma NextNode(q: seq<nat>, n: nat, i: nat)
    requires NoDup(q) && InRange(q, n) && i < |q|
    ensures 1 <= q[i] <= n && q[i] !in q[..i]
  {}

  // ---------------------------------------------------------------- a level within a level

  /** The level of the last node's block. */
  function Inner(c: seq<Cell>, q: seq<nat>, n: nat): Start { Start(c, q, n) }

  lemma InnerOk(l: Start, c: seq<Cell>, q: seq<nat>, p: Progress, n: nat)
    requires StartOk(l) && Level(l, c, q, p) && 1 <= n <= |c| && n in Order(p.ts) && c[n - 1].embedded == 0
    ensures StartOk(Inner(c, q, n))
  {
    hide Order, Chained, Carries;
    LevelNodes(l, c, q, p);
    SuffixOk(l.queue, p.took, |l.cells|);
  }

  lemma SuffixOk(q: seq<nat>, i: nat, n: nat)
    requires NoDup(q) && InRange(q, n) && i <= |q|
    ensures NoDup(q[i..]) && InRange(q[i..], n)
  {}

  /** The progress after the last node has got its block. */
  function WithBlock(p: Progress, n: nat, v: Tlv, k: Progress): Progress {
    Progress(if p.ts == [] then n else p.root, p.ts + [Tree(n, k.ts)], p.vs + [v.(value := Block(k.vs))], p.took + 1 + k.took)
  }

  /** Only the taken nodes and the link to the block have changed. */
  ghost predicate BlockOnly(c: seq<Cell>, c': seq<Cell>, taken: seq<nat>, n: nat, root: nat) {
    && |c'| == |c| && 1 <= n <= |c| && c'[n - 1] == c[n - 1].(embedded := root)
    && forall i :: 0 <= i < |c| && i + 1 !in taken && i + 1 != n ==> c'[i] == c[i]
  }

  lemma LevelAttach(l: Start, c: seq<Cell>, q: seq<nat>, p: Progress, n: nat, v: Tlv, c': seq<Cell>, q': seq<nat>,
                    k: Progress)
    requires StartOk(l) && Level(l, c, q, Plus1(p, n, v)) && v.value == Leaf([])
    requires n != 0 && Level(Inner(c, q, n), c', q', k) && k.ts != []
    ensures Level(l, c', q', WithBlock(p, n, v, k))
  {
    hide Order, Chained, Carries, NoDup, InRange, Level, BlockOnly;
    var p1 := Plus1(p, n, v);
    LevelNodes(l, c, q, p1);
    LevelChain(l, c, q, p1);
    LevelChain(Inner(c, q, n), c', q', k);
    var taken := q[..TookLe(Inner(c, q, n), c', q', k)];
    InnerParts(c, q, n, c', q', k);
    OrderLast(p.ts, Tree(n, []));
    TakenApart(l, c, q, p1, n, c', q', k);
    ChainedBlock(c, c', p1.root, p.ts, n, k.root, k.ts, taken);
    CarriesBlock(c, c', p.ts, p.vs, n, v, k.root, k.ts, k.vs, taken);
    TookBlock(l, c, q, p, n, v, c', q', k);
    BlockRest(l, c, q, p, n, v, c', q', k);
  }

  function TookLe(l: Start, c: seq<Cell>, q: seq<nat>, p: Progress): (n: nat)
    requires Level(l, c, q, p)
    ensures n == p.took <= |l.queue|
  {
    p.took
  }

  lemma InnerParts(c: seq<Cell>, q: seq<nat>, n: nat, c': seq<Cell>, q': seq<nat>, k: Progress)
    requires n != 0 && Level(Inner(c, q, n), c', q', k)
    ensures BlockOnly(c, c', q[..k.took], n, k.root)
  {
    hide Order, Chained, Carries;
  }

  lemma TakenApart(l: Start, c: seq<Cell>, q: seq<nat>, p: Progress, n: nat, c': seq<Cell>, q': seq<nat>, k: Progress)
    requires StartOk(l) && Level(l, c, q, p) && k.took <= |q|
    ensures forall i :: i in Order(p.ts) ==> i !in q[..k.took]
  {
    hide Order, Chained, Carries, NoDup, InRange;
    LevelNodes(l, c, q, p);
    assert forall i :: i in q[..k.took] ==> i in q;
  }

  lemma ChainedBlock(c: seq<Cell>, c': seq<Cell>, root: nat, ts: seq<Tree>, n: nat, p: nat, kids: seq<Tree>,
                     taken: seq<nat>)
    requires Chained(c, root, ts + [Tree(n, [])]) && NoDup(Order(ts + [Tree(n, [])])) && BlockOnly(c, c', taken, n, p)
    requires forall i :: i in Order(ts + [Tree(n, [])]) ==> i !in taken
    requires Chained(c', p, kids) && kids != []
    ensures Chained(c', root, ts + [Tree(n, kids)])
  {
    hide Order, NoDup, Rep;
    var ts1, ts2 := ts + [Tree(n, [])], ts + [Tree(n, kids)];
    NodeIn(ts1, |ts|);
    assert ts1[|ts|] == Tree(n, []);
    assert ts1[|ts| := Tree(n, kids)] == ts2;
    Attach(c, c', root, ts1, |ts|, p, kids);
    NodeIn(ts1, 0);
    forall i | 0 <= i < |ts2| ensures 1 <= ts2[i].node <= |c'| && c'[ts2[i].node - 1].head == root {
      NodeIn(ts1, i);
      assert ts2[i].node == ts1[i].node && ts1[i].node - 1 + 1 == ts1[i].node;
    }
    assert ts2[0].node == ts1[0].node && ts2[|ts|].node == n && root - 1 + 1 == root;
  }

  lemma CarriesBlock(c: seq<Cell>, c': seq<Cell>, ts: seq<Tree>, vs: seq<Tlv>, n: nat, v: Tlv, p: nat, kids: seq<Tree>,
                     es: seq<Tlv>, taken: seq<nat>)
    requires Carries(c, ts + [Tree(n, [])], vs + [v]) && BlockOnly(c, c', taken, n, p) && v.value == Leaf([])
    requires forall i :: i in Order(ts + [Tree(n, [])]) ==> i !in taken
    requires NoDup(Order(ts + [Tree(n, [])])) && Carries(c', kids, es) && kids != []
    ensures Carries(c', ts + [Tree(n, kids)], vs + [v.(value := Block(es))])
  {
    hide Order, NoDup;
    var ts1, vs1 := ts + [Tree(n, [])], vs + [v];
    CarriesLength(c, ts1, vs1);
    CarriesAt(c, ts1, vs1, |ts|);
    assert ts1[|ts|] == Tree(n, []) && vs1[|ts|] == v;
    CarriesPrefix(c, ts, vs, Tree(n, []), v);
    OrderLast(ts, Tree(n, []));
    NothingOrdered();
    assert [] + [n] == [n];
    SplitNoDup(Order(ts), [n]);
    assert n in [n];
    forall i | 0 <= i < |c| && i + 1 in Order(ts) ensures SameContent(c[i], c'[i]) {
      assert i + 1 in Order(ts1);
    }
    CarriesFrame(c, c', ts, vs);
    CarriesLast(c', ts, Tree(n, kids), vs, v.(value := Block(es)));
  }

  lemma {:induction false} CarriesPrefix(c: seq<Cell>, ts: seq<Tree>, vs: seq<Tlv>, t: Tree, v: Tlv)
    requires Carries(c, ts + [t], vs + [v])
    ensures Carries(c, ts, vs)
    decreases |ts|
  {
    hide CarriesOne;
    CarriesLength(c, ts + [t], vs + [v]);
    if ts != [] {
      assert (ts + [t])[0] == ts[0] && (ts + [t])[1..] == ts[1..] + [t];
      assert (vs + [v])[0] == vs[0] && (vs + [v])[1..] == vs[1..] + [v];
      CarriesPrefix(c, ts[1..], vs[1..], t, v);
    }
  }

  lemma TookBlock(l: Start, c: seq<Cell>, q: seq<nat>, p: Progress, n: nat, v: Tlv, c': seq<Cell>, q': seq<nat>,
                  k: Progress)
    requires Level(l, c, q, Plus1(p, n, v)) && Level(Inner(c, q, n), c', q', k)
    ensures var p' := WithBlock(p, n, v, k);
            p'.took <= |l.queue| && q' == l.queue[p'.took..] && multiset(Order(p'.ts)) == multiset(l.queue[..p'.took])
  {
    hide Order, Chained, Carries;
    OrderLast(p.ts, Tree(n, []));
    OrderLast(p.ts, Tree(n, k.ts));
    NothingOrdered();
    assert l.queue[..p.took + 1 + k.took] == l.queue[..p.took + 1] + q[..k.took];
  }

  lemma BlockRest(l: Start, c: seq<Cell>, q: seq<nat>, p: Progress, n: nat, v: Tlv, c': seq<Cell>, q': seq<nat>,
                  k: Progress)
    requires StartOk(l) && Level(l, c, q, Plus1(p, n, v)) && n != 0 && Level(Inner(c, q, n), c', q', k)
    requires var p' := WithBlock(p, n, v, k);
             p'.took <= |l.queue| && q' == l.queue[p'.took..] && multiset(Order(p'.ts)) == multiset(l.queue[..p'.took])
             && Chained(c', p'.root, p'.ts) && Carries(c', p'.ts, p'.vs)
    ensures Level(l, c', q', WithBlock(p, n, v, k))
  {
    hide Order, Chained, Carries, NoDup, InRange;
    var p1, p' := Plus1(p, n, v), WithBlock(p, n, v, k);
    LevelNodes(l, c, q, p1);
    NodeIn(p1.ts, |p.ts|);
    var a, b := l.queue[..p1.took], l.queue[..p'.took];
    assert b == a + q[..k.took];
    if l.parent != 0 {
      assert l.parent !in q[..k.took] by { assert forall x :: x in q[..k.took] ==> x in l.queue; }
      assert l.parent - 1 + 1 == l.parent;
    }
    forall i | 0 <= i < |c| && i + 1 !in b && i + 1 != l.parent ensures c'[i] == l.cells[i] {
      assert i + 1 !in a && i + 1 !in q[..k.took] && i + 1 != n;
    }
  }

  // ---------------------------------------------------------------- one node more

  function LastNode(p: Progress): nat { if p.ts == [] then 0 else p.ts[|p.ts| - 1].node }

  lemma LevelEnds(l: Start, c: seq<Cell>, q: seq<nat>, p: Progress)
    requires StartOk(l) && Level(l, c, q, p)
    ensures p.ts != [] ==> p.root != 0 && 1 <= p.root <= |c| && p.root !in q && c[p.root - 1].tail == LastNode(p)
    ensures p.ts != [] ==> 1 <= LastNode(p) <= |c| && LastNode(p) !in q && c[LastNode(p) - 1].head == p.root
    ensures p.ts == [] ==> p.root == 0
    ensures l.parent != 0 ==> 1 <= l.parent <= |c| && l.parent !in q && c[l.parent - 1].embedded == p.root
  {
    hide Order, Carries, NoDup, InRange, Rep;
    LevelNodes(l, c, q, p);
    if p.ts != [] {
      NodeIn(p.ts, 0);
      NodeIn(p.ts, |p.ts| - 1);
    }
    assert forall k :: k in q ==> k in l.queue;
  }

  lemma LevelCount(l: Start, c: seq<Cell>, q: seq<nat>, p: Progress)
    requires Level(l, c, q, p)
    ensures |p.ts| == |p.vs| && (p.took == 0 <==> p.ts == [])
  {
    hide Order, Chained;
    CarriesLength(c, p.ts, p.vs);
    var a, b := l.queue[..p.took], Order(p.ts);
    assert |a| == |multiset(a)| && |b| == |multiset(b)|;
    NothingOrdered();
    if p.ts != [] { OrderIs(p.ts); }
  }

  /** A node added to a level, at its end or at the end of the parent's block. */
  method AddNode(pool: Pool, parent: nat, last: nat, element: Element, bytes: seq<Byte>, ghost l: Start,
                 ghost p: Progress, ghost v: Tlv)
    returns (node: nat)
    requires pool.Valid() && StartOk(l) && l.parent == parent && Level(l, pool.cells, pool.queue, p)
             && last == LastNode(p)
    requires Describes(Cell(0, 0, element, 0, 0, 0, bytes), v)
    modifies pool`head, pool`avail, pool`queue, pool`cells, pool.free, pool.index
    ensures pool.Valid() && pool.size == old(pool.size)
    ensures node == 0 <==> old(pool.queue) == []
    ensures node != 0 ==>
              1 <= node <= |pool.cells| && Level(l, pool.cells, pool.queue, Plus1(p, node, v))
              && pool.cells[node - 1].embedded == 0
  {
    hide Pool.Valid, StartOk, Level, Behind;
    ghost var c, q := pool.cells, pool.queue;
    LevelEnds(l, c, q, p);
    ghost var cell := Cell(0, 0, element, 0, 0, 0, bytes);
    if q != [] {
      LevelReady(l, c, q, p);
      LevelAdd(l, c, q, p, cell, v);
      AddedNode(l, c, q, p, cell, v);
    }
    if parent == 0 {
      node := TlvAdd(pool, last, element, bytes);
    } else {
      node := TlvEmbed(pool, parent, element, bytes);
    }
  }

  lemma AddedNode(l: Start, c: seq<Cell>, q: seq<nat>, p: Progress, cell: Cell, v: Tlv)
    requires StartOk(l) && Level(l, c, q, p) && q != [] && Describes(cell, v)
    requires var n := q[0];
             1 <= n <= |c|
             && (p.root != 0 ==> 1 <= p.root <= |c| && 1 <= c[p.root - 1].tail <= |c| && p.root != n && c[p.root - 1].tail != n)
             && (l.parent != 0 ==> 1 <= l.parent <= |c| && l.parent != n && c[l.parent - 1].embedded == p.root)
    ensures var c' := Added(c, l.parent, p.root, q[0], cell); |c'| == |c| && c'[q[0] - 1].embedded == 0
  {}
}
