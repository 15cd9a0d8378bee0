/** Building a packet from a message. */
module TlvBuild {
  import opened Sequences
  import opened Arith
  import opened Tlv
  import opened TlvPool
  import opened TlvNodes
  import opened TlvMsg
  import opened TlvMsgProof
  import opened TlvParse
  import opened TlvRender

  // ---------------------------------------------------------------- how many nodes are taken

  /** The nodes that building takes from the pool, up to the first failure. */
  function TookList(ds: seq<Desc>, m: Slots, off: nat, mode: Mode): nat
    decreases ds, 2, 0
  {
    if ds == [] then 0
    else if |ds| > 1 && ds[1].More? then
      TookRepeat(ds[0], m, off, ds[1].length, mode)
      + if BuildRepeat(ds[0], m, off, ds[1].length, mode) == Failed then 0
        else TookList(ds[2..], m, SlotAt(off, Vsize(ds[0]), ds[1].length), mode)
    else if off in m then
      TookOne(ds[0], m, off, mode)
      + if BuildOne(ds[0], m, off, mode) == Failed then 0 else TookList(ds[1..], m, off + Vsize(ds[0]), mode)
    else TookList(ds[1..], m, off + Vsize(ds[0]), mode)
  }

  function TookRepeat(d: Desc, m: Slots, off: nat, n: nat, mode: Mode): nat
    decreases d, 1, n
  {
    if n == 0 || off !in m then 0
    else TookOne(d, m, off, mode) + if BuildOne(d, m, off, mode) == Failed then 0 else TookRepeat(d, m, off + Vsize(d), n - 1, mode)
  }

  function TookOne(d: Desc, m: Slots, off: nat, mode: Mode): nat
    requires off in m
    decreases d, 0, 0
  {
    match d
    case LeafDesc(_, _, _, _, _) => if BuildOne(d, m, off, mode) == Failed then 0 else 1
    case CompoundDesc(_, _, _, children) => 1 + TookList(children, m, off + PRESENCE, mode)
    case More(_) => 0
  }

  // ---------------------------------------------------------------- how deep building goes

  /** Building a level at this depth reaches a level deeper than 8, which stops the program. */
  predicate DeepList(ds: seq<Desc>, m: Slots, off: nat, mode: Mode, depth: nat)
    decreases ds, 3, 0
  {
    depth > 8 || DeepRest(ds, m, off, mode, depth)
  }

  predicate DeepRest(ds: seq<Desc>, m: Slots, off: nat, mode: Mode, depth: nat)
    decreases ds, 2, 0
  {
    if ds == [] then false
    else if |ds| > 1 && ds[1].More? then
      DeepRepeat(ds[0], m, off, ds[1].length, mode, depth)
      || (BuildRepeat(ds[0], m, off, ds[1].length, mode) != Failed
          && DeepRest(ds[2..], m, SlotAt(off, Vsize(ds[0]), ds[1].length), mode, depth))
    else if off in m then
      DeepOne(ds[0], m, off, mode, depth)
      || (BuildOne(ds[0], m, off, mode) != Failed && DeepRest(ds[1..], m, off + Vsize(ds[0]), mode, depth))
    else DeepRest(ds[1..], m, off + Vsize(ds[0]), mode, depth)
  }

  predicate DeepRepeat(d: Desc, m: Slots, off: nat, n: nat, mode: Mode, depth: nat)
    decreases d, 1, n
  {
    n > 0 && off in m
    && (DeepOne(d, m, off, mode, depth)
        || (BuildOne(d, m, off, mode) != Failed && DeepRepeat(d, m, off + Vsize(d), n - 1, mode, depth)))
  }

  predicate DeepOne(d: Desc, m: Slots, off: nat, mode: Mode, depth: nat)
    decreases d, 0, 0
  {
    d.CompoundDesc? && DeepList(d.children, m, off + PRESENCE, mode, depth + 1)
  }

  // ---------------------------------------------------------------- the builder

  /** A part has been added, with this many nodes. */
  ghost predicate Grew(part: Built, took: nat, p: Progress, p': Progress) {
    part.Built? && p'.vs == p.vs + part.ts && p'.took == p.took + took
  }

  /** The nodes of a level taken so far are gone from the front of the queue. */
  ghost predicate Taken(l: Start, q: seq<nat>, took: nat) {
    took <= |l.queue| && q == l.queue[took..]
  }

  /** tlv_add_leaf: nothing for an empty string of variable length. */
  method AddLeaf(pool: Pool, d: Desc, m: Slots, off: nat, mode: Mode, parent: nat, last: nat, ghost l: Start,
                 ghost p: Progress)
    returns (ok: bool, node: nat, aborted: bool, ghost p': Progress)
    requires off in m && d.LeafDesc?
    requires pool.Valid() && StartOk(l) && l.parent == parent && Level(l, pool.cells, pool.queue, p)
             && last == LastNode(p)
    modifies pool`head, pool`avail, pool`queue, pool`cells, pool.free, pool.index
    ensures aborted ==> p.took + TookOne(d, m, off, mode) > |l.queue|
    ensures !aborted ==>
              pool.Valid() && pool.size == old(pool.size) && Taken(l, pool.queue, p.took + TookOne(d, m, off, mode))
    ensures !aborted ==> ok == (BuildOne(d, m, off, mode) != Failed)
    ensures !aborted && ok ==> Level(l, pool.cells, pool.queue, p') && node == LastNode(p') && p'.ts != []
                               && Grew(BuildOne(d, m, off, mode), 1, p, p')
                               && p'.root == if p.ts == [] then node else p.root
  {
    hide Pool.Valid, StartOk, Level, LeafBytes;
    ok, node, aborted, p' := false, 0, false, p;
    LevelTaken(l, pool.cells, pool.queue, p);
    if d.ctype == VarStr && Raw(m[off]) == [] {
      return;
    }
    var bytes := LeafBytes(d, m[off]);
    ghost var v := Tlv(mode, d.typ, d.instance, Leaf(bytes));
    node := AddNode(pool, parent, last, Element(mode, d.typ, |bytes|, d.instance, 0), bytes, l, p, v);
    if node == 0 {
      aborted := true;
      return;
    }
    p' := Plus1(p, node, v);
    LevelTaken(l, pool.cells, pool.queue, p');
    ok := true;
  }

  lemma LevelTaken(l: Start, c: seq<Cell>, q: seq<nat>, p: Progress)
    requires Level(l, c, q, p)
    ensures Taken(l, q, p.took)
  {}

  /** A leaf, or a compound: its node first, then what is embedded in it. */
  method AddOne(pool: Pool, d: Desc, m: Slots, off: nat, depth: nat, mode: Mode, parent: nat, last: nat,
                ghost l: Start, ghost p: Progress)
    returns (ok: bool, node: nat, count: nat, aborted: bool, ghost p': Progress)
    requires off in m
    requires pool.Valid() && StartOk(l) && l.parent == parent && Level(l, pool.cells, pool.queue, p)
             && last == LastNode(p)
    modifies pool`head, pool`avail, pool`queue, pool`cells, pool.free, pool.index
    ensures aborted ==> p.took + TookOne(d, m, off, mode) > |l.queue| || DeepOne(d, m, off, mode, depth)
    ensures !aborted ==>
              pool.Valid() && pool.size == old(pool.size) && Taken(l, pool.queue, p.took + TookOne(d, m, off, mode))
              && !DeepOne(d, m, off, mode, depth)
    ensures !aborted ==> ok == (BuildOne(d, m, off, mode) != Failed)
    ensures !aborted && ok ==> Level(l, pool.cells, pool.queue, p') && node == LastNode(p') && p'.ts != []
                               && count == TookOne(d, m, off, mode) && Grew(BuildOne(d, m, off, mode), count, p, p')
                               && p'.root == if p.ts == [] then node else p.root
    decreases d, 0
  {
    hide Pool.Valid, StartOk, Level, Taken, LeafBytes, BuildList, TookList, DeepList;
    ok, node, count, aborted, p' := false, 0, 0, false, p;
    match d {
      case LeafDesc(_, _, _, _, _) =>
        ok, node, aborted, p' := AddLeaf(pool, d, m, off, mode, parent, last, l, p);
        count := 1;
      case CompoundDesc(typ, instance, vsize, children) =>
        ghost var v := Tlv(mode, typ, instance, Leaf([]));
        LevelTaken(l, pool.cells, pool.queue, p);
        TakenSize(l, pool.queue, p.took);
        node := AddNode(pool, parent, last, Element(mode, typ, 0, instance, 0), [], l, p, v);
        if node == 0 {
          aborted := true;
          return;
        }
        ghost var c1, q1, p1 := pool.cells, pool.queue, Plus1(p, node, v);
        LevelTaken(l, c1, q1, p1);
        NodeIn(p1.ts, |p.ts|);
        InnerOk(l, c1, q1, p1, node);
        var embedded, r, dry, k := AddCompound(pool, children, m, off + PRESENCE, depth + 1, mode, node,
                                               Inner(c1, q1, node));
        if dry {
          TakenSize(l, q1, p1.took);
          aborted := true;
          return;
        }
        TakenBoth(l, c1, q1, node, pool.queue, p1.took, TookList(children, m, off + PRESENCE, mode));
        if r == 0 || embedded == 0 {
          return;
        }
        LevelAttach(l, c1, q1, p, node, v, pool.cells, pool.queue, k);
        p' := WithBlock(p, node, v, k);
        count := 1 + r;
        ok := true;
      case More(_) =>
        LevelTaken(l, pool.cells, pool.queue, p);
    }
  }

  lemma TakenSize(l: Start, q: seq<nat>, n: nat)
    requires Taken(l, q, n)
    ensures n + |q| == |l.queue|
  {}

  lemma TakenBoth(l: Start, c: seq<Cell>, q1: seq<nat>, node: nat, q2: seq<nat>, n: nat, k: nat)
    requires Taken(l, q1, n) && Taken(Inner(c, q1, node), q2, k)
    ensures Taken(l, q2, n + k)
  {}

  // ---------------------------------------------------------------- a list of descriptors

  /** What descriptor i contributes, with its repetitions. */
  ghost function Part(ds: seq<Desc>, i: nat, m: Slots, offset: nat, mode: Mode): Built
    requires i < |ds|
  {
    if i + 1 < |ds| && ds[i + 1].More? then BuildRepeat(ds[i], m, offset, ds[i + 1].length, mode)
    else if offset in m then BuildOne(ds[i], m, offset, mode)
    else Built([])
  }

  ghost function PartTook(ds: seq<Desc>, i: nat, m: Slots, offset: nat, mode: Mode): nat
    requires i < |ds|
  {
    if i + 1 < |ds| && ds[i + 1].More? then TookRepeat(ds[i], m, offset, ds[i + 1].length, mode)
    else if offset in m then TookOne(ds[i], m, offset, mode)
    else 0
  }

  ghost predicate PartDeep(ds: seq<Desc>, i: nat, m: Slots, offset: nat, mode: Mode, depth: nat)
    requires i < |ds|
  {
    if i + 1 < |ds| && ds[i + 1].More? then DeepRepeat(ds[i], m, offset, ds[i + 1].length, mode, depth)
    else offset in m && DeepOne(ds[i], m, offset, mode, depth)
  }

  function After(ds: seq<Desc>, i: nat): nat
    requires i < |ds|
  {
    if i + 1 < |ds| && ds[i + 1].More? then i + 2 else i + 1
  }

  function OffsetAfter(ds: seq<Desc>, i: nat, offset: nat): nat
    requires i < |ds|
  {
    if i + 1 < |ds| && ds[i + 1].More? then SlotAt(offset, Vsize(ds[i]), ds[i + 1].length) else offset + Vsize(ds[i])
  }

  /** Everything before descriptor i has been added. */
  ghost predicate Adding(ds: seq<Desc>, m: Slots, base: nat, mode: Mode, depth: nat, i: nat, offset: nat, p: Progress) {
    && i <= |ds|
    && BuildList(ds, m, base, mode) == Join(Built(p.vs), BuildList(ds[i..], m, offset, mode))
    && TookList(ds, m, base, mode) == p.took + TookList(ds[i..], m, offset, mode)
    && (DeepRest(ds, m, base, mode, depth) <==> DeepRest(ds[i..], m, offset, mode, depth))
  }

  lemma AddingStart(ds: seq<Desc>, m: Slots, base: nat, mode: Mode, depth: nat)
    ensures Adding(ds, m, base, mode, depth, 0, base, Progress(0, [], [], 0))
  {
    hide BuildList, TookList, DeepRest, Join;
    assert ds[0..] == ds;
    JoinStart(BuildList(ds, m, base, mode));
  }

  lemma AddingNext(ds: seq<Desc>, m: Slots, base: nat, mode: Mode, depth: nat, i: nat, offset: nat, p: Progress,
                   p': Progress)
    requires Adding(ds, m, base, mode, depth, i, offset, p) && i < |ds|
    requires Grew(Part(ds, i, m, offset, mode), PartTook(ds, i, m, offset, mode), p, p')
    requires !PartDeep(ds, i, m, offset, mode, depth)
    ensures Adding(ds, m, base, mode, depth, After(ds, i), OffsetAfter(ds, i, offset), p')
  {
    hide BuildOne, BuildRepeat, BuildList, TookOne, TookRepeat, TookList, DeepOne, DeepRepeat, DeepRest, PartDeep,
         Join, SlotAt;
    BuildStep(ds, i, m, offset, mode);
    DeepStep(ds, i, m, offset, mode, depth);
    TookStep(ds, i, m, offset, mode);
    JoinAssoc(p.vs, Part(ds, i, m, offset, mode).ts,
              BuildList(ds[After(ds, i)..], m, OffsetAfter(ds, i, offset), mode));
  }

  lemma AddingFails(ds: seq<Desc>, m: Slots, base: nat, mode: Mode, depth: nat, i: nat, offset: nat, p: Progress)
    requires Adding(ds, m, base, mode, depth, i, offset, p) && i < |ds| && Part(ds, i, m, offset, mode) == Failed
    ensures BuildList(ds, m, base, mode) == Failed
            && TookList(ds, m, base, mode) == p.took + PartTook(ds, i, m, offset, mode)
    ensures !PartDeep(ds, i, m, offset, mode, depth) ==> !DeepRest(ds, m, base, mode, depth)
  {
    hide BuildOne, BuildRepeat, BuildList, TookOne, TookRepeat, TookList, DeepOne, DeepRepeat, DeepRest, PartDeep,
         Join, SlotAt;
    BuildStep(ds, i, m, offset, mode);
    DeepStep(ds, i, m, offset, mode, depth);
    TookStep(ds, i, m, offset, mode);
    JoinFails();
  }

  /** Whatever stops the program at one descriptor stops it. */
  lemma AddingStops(ds: seq<Desc>, m: Slots, base: nat, mode: Mode, depth: nat, i: nat, offset: nat, p: Progress)
    requires Adding(ds, m, base, mode, depth, i, offset, p) && i < |ds|
    ensures p.took + PartTook(ds, i, m, offset, mode) <= TookList(ds, m, base, mode)
    ensures PartDeep(ds, i, m, offset, mode, depth) ==> DeepRest(ds, m, base, mode, depth)
  {
    hide BuildOne, BuildRepeat, BuildList, TookOne, TookRepeat, TookList, DeepOne, DeepRepeat, DeepRest, Join, SlotAt;
    TookStep(ds, i, m, offset, mode);
    DeepStep(ds, i, m, offset, mode, depth);
  }

  lemma DeepStep(ds: seq<Desc>, i: nat, m: Slots, offset: nat, mode: Mode, depth: nat)
    requires i < |ds|
    ensures DeepRest(ds[i..], m, offset, mode, depth)
            <==> PartDeep(ds, i, m, offset, mode, depth)
                 || (Part(ds, i, m, offset, mode) != Failed
                     && DeepRest(ds[After(ds, i)..], m, OffsetAfter(ds, i, offset), mode, depth))
  {
    hide BuildOne, BuildRepeat, DeepOne, DeepRepeat, SlotAt;
    var s := ds[i..];
    assert s[0] == ds[i] && s[1..] == ds[i + 1..];
    if i + 1 < |ds| { assert s[1] == ds[i + 1] && s[2..] == ds[i + 2..]; }
  }

  lemma DeepEnd(ds: seq<Desc>, m: Slots, offset: nat, mode: Mode, depth: nat)
    ensures !DeepRest(ds[|ds|..], m, offset, mode, depth)
  {}

  lemma AddingEnd(ds: seq<Desc>, m: Slots, base: nat, mode: Mode, depth: nat, offset: nat, p: Progress)
    requires Adding(ds, m, base, mode, depth, |ds|, offset, p)
    ensures BuildList(ds, m, base, mode) == Built(p.vs) && TookList(ds, m, base, mode) == p.took
    ensures !DeepRest(ds, m, base, mode, depth)
  {
    hide BuildList, TookList, DeepRest, Join, SlotAt;
    BuildEnd(ds, m, offset, mode);
    TookEnd(ds, m, offset, mode);
    DeepEnd(ds, m, offset, mode, depth);
    JoinNone(p.vs);
  }

  /** tlv_add_compound: the first node, and the number of nodes, none on failure. */
  method AddCompound(pool: Pool, ds: seq<Desc>, m: Slots, base: nat, depth: nat, mode: Mode, parent: nat,
                     ghost l: Start)
    returns (root: nat, count: nat, aborted: bool, ghost p: Progress)
    requires pool.Valid() && StartOk(l) && l == Start(pool.cells, pool.queue, parent)
    modifies pool`head, pool`avail, pool`queue, pool`cells, pool.free, pool.index
    ensures aborted ==> TookList(ds, m, base, mode) > |l.queue| || DeepList(ds, m, base, mode, depth)
    ensures !aborted ==>
              pool.Valid() && pool.size == old(pool.size) && Taken(l, pool.queue, TookList(ds, m, base, mode))
              && !DeepList(ds, m, base, mode, depth)
    ensures !aborted ==> (count > 0 <==> BuildList(ds, m, base, mode) != Failed && BuildList(ds, m, base, mode) != Built([]))
    ensures !aborted && count > 0 ==> Level(l, pool.cells, pool.queue, p) && root == p.root && p.ts != [] && p.root != 0
                                      && BuildList(ds, m, base, mode) == Built(p.vs)
                                      && p.took == TookList(ds, m, base, mode) == count
    decreases ds, 2
  {
    hide Pool.Valid, StartOk, Level, Taken, BuildList, DeepRest, PartDeep, TookList, Part, PartTook, Adding, SlotAt;
    root, count, aborted, p := 0, 0, false, Progress(0, [], [], 0);
    if depth > MAX_DEPTH {
      aborted := true;
      return;
    }
    LevelStart(l);
    AddingStart(ds, m, base, mode, depth);
    var last: nat, i: nat, offset: nat := 0, 0, base;
    while i < |ds|
      invariant i <= |ds| && pool.Valid() && pool.size == old(pool.size) && pool.free == old(pool.free)
                && pool.index == old(pool.index)
      invariant Level(l, pool.cells, pool.queue, p) && last == LastNode(p) && root == p.root && count == p.took
      invariant Adding(ds, m, base, mode, depth, i, offset, p)
    {
      ghost var p0 := p;
      var ok, r;
      ok, root, last, r, aborted, p := AddPart(pool, ds, i, m, offset, depth, mode, parent, root, last, l, p);
      AddingStops(ds, m, base, mode, depth, i, offset, p0);
      if aborted {
        return;
      }
      if !ok {
        AddingFails(ds, m, base, mode, depth, i, offset, p0);
        count := 0;
        return;
      }
      AddingNext(ds, m, base, mode, depth, i, offset, p0, p);
      count := count + r;
      offset := OffsetAfter(ds, i, offset);
      i := After(ds, i);
    }
    AddingEnd(ds, m, base, mode, depth, offset, p);
    LevelTaken(l, pool.cells, pool.queue, p);
    LevelCount(l, pool.cells, pool.queue, p);
    LevelEnds(l, pool.cells, pool.queue, p);
  }

  /** One turn of the loop over the descriptors. */
  method AddPart(pool: Pool, ds: seq<Desc>, i: nat, m: Slots, offset: nat, depth: nat, mode: Mode, parent: nat,
                 root0: nat, last0: nat, ghost l: Start, ghost p0: Progress)
    returns (ok: bool, root: nat, last: nat, count: nat, aborted: bool, ghost p: Progress)
    requires i < |ds|
    requires pool.Valid() && StartOk(l) && l.parent == parent && Level(l, pool.cells, pool.queue, p0)
             && last0 == LastNode(p0) && root0 == p0.root
    modifies pool`head, pool`avail, pool`queue, pool`cells, pool.free, pool.index
    ensures aborted ==>
              p0.took + PartTook(ds, i, m, offset, mode) > |l.queue| || PartDeep(ds, i, m, offset, mode, depth)
    ensures !aborted ==>
              pool.Valid() && pool.size == old(pool.size)
              && Taken(l, pool.queue, p0.took + PartTook(ds, i, m, offset, mode))
              && !PartDeep(ds, i, m, offset, mode, depth)
    ensures !aborted ==> ok == (Part(ds, i, m, offset, mode) != Failed)
    ensures !aborted && ok ==> Level(l, pool.cells, pool.queue, p) && last == LastNode(p) && root == p.root
                               && count == PartTook(ds, i, m, offset, mode)
                               && Grew(Part(ds, i, m, offset, mode), count, p0, p)
    decreases ds, 1
  {
    hide Pool.Valid, StartOk, Level, Taken, BuildOne, BuildRepeat, DeepOne, DeepRepeat, TookRepeat, TookOne;
    var d := ds[i];
    LevelEnds(l, pool.cells, pool.queue, p0);
    LevelTaken(l, pool.cells, pool.queue, p0);
    ok, root, last, count, aborted, p := true, root0, last0, 0, false, p0;
    if i + 1 < |ds| && ds[i + 1].More? {
      ok, root, last, count, aborted, p := AddRepeated(pool, d, m, offset, ds[i + 1].length, depth, mode, parent, root,
                                                       last, l, p);
    } else if offset in m {
      ok, last, count, aborted, p := AddOne(pool, d, m, offset, depth, mode, parent, last, l, p);
      if root == 0 {
        root := last;
      }
    } else {
      assert p0.vs + [] == p0.vs;
    }
  }

  lemma TookStep(ds: seq<Desc>, i: nat, m: Slots, offset: nat, mode: Mode)
    requires i < |ds|
    ensures TookList(ds[i..], m, offset, mode) ==
            if i + 1 < |ds| && ds[i + 1].More? then
              TookRepeat(ds[i], m, offset, ds[i + 1].length, mode)
              + if BuildRepeat(ds[i], m, offset, ds[i + 1].length, mode) == Failed then 0
                else TookList(ds[i + 2..], m, SlotAt(offset, Vsize(ds[i]), ds[i + 1].length), mode)
            else if offset in m then
              TookOne(ds[i], m, offset, mode)
              + if BuildOne(ds[i], m, offset, mode) == Failed then 0 else TookList(ds[i + 1..], m, offset + Vsize(ds[i]), mode)
            else TookList(ds[i + 1..], m, offset + Vsize(ds[i]), mode)
  {
    hide BuildOne, BuildRepeat, TookOne, TookRepeat, SlotAt;
    var s := ds[i..];
    assert s[0] == ds[i] && s[1..] == ds[i + 1..];
    if i + 1 < |ds| { assert s[1] == ds[i + 1] && s[2..] == ds[i + 2..]; }
  }

  lemma TookEnd(ds: seq<Desc>, m: Slots, offset: nat, mode: Mode)
    ensures TookList(ds[|ds|..], m, offset, mode) == 0
  {}

  /** The slots of a repeated descriptor up to the first that is absent. */
  method AddRepeated(pool: Pool, d: Desc, m: Slots, start: nat, n: nat, depth: nat, mode: Mode, parent: nat,
                     root0: nat, last0: nat, ghost l: Start, ghost p0: Progress)
    returns (ok: bool, root: nat, last: nat, count: nat, aborted: bool, ghost p: Progress)
    requires pool.Valid() && StartOk(l) && l.parent == parent && Level(l, pool.cells, pool.queue, p0)
             && last0 == LastNode(p0) && root0 == p0.root
    modifies pool`head, pool`avail, pool`queue, pool`cells, pool.free, pool.index
    ensures aborted ==>
              p0.took + TookRepeat(d, m, start, n, mode) > |l.queue| || DeepRepeat(d, m, start, n, mode, depth)
    ensures !aborted ==>
              pool.Valid() && pool.size == old(pool.size)
              && Taken(l, pool.queue, p0.took + TookRepeat(d, m, start, n, mode))
              && !DeepRepeat(d, m, start, n, mode, depth)
    ensures !aborted ==> ok == (BuildRepeat(d, m, start, n, mode) != Failed)
    ensures !aborted && ok ==> Level(l, pool.cells, pool.queue, p) && last == LastNode(p) && root == p.root
                               && count == TookRepeat(d, m, start, n, mode)
                               && Grew(BuildRepeat(d, m, start, n, mode), count, p0, p)
    decreases d, 1
  {
    hide Pool.Valid, StartOk, Level, Taken, BuildOne, BuildRepeat, Join, TookOne, TookRepeat, DeepOne, DeepRepeat;
    ok, root, last, count, aborted, p := true, root0, last0, 0, false, p0;
    var j: nat, offset: nat := 0, start;
    LevelTaken(l, pool.cells, pool.queue, p);
    JoinFails();
    JoinStart(BuildRepeat(d, m, start, n, mode));
    ghost var done: seq<Tlv> := [];
    while j < n && offset in m
      invariant 0 <= j <= n && pool.Valid() && pool.size == old(pool.size) && pool.free == old(pool.free)
                && pool.index == old(pool.index)
      invariant Level(l, pool.cells, pool.queue, p) && last == LastNode(p) && root == p.root
                && p.took == p0.took + count && ok && !aborted
      invariant BuildRepeat(d, m, start, n, mode) == Join(Built(done), BuildRepeat(d, m, offset, n - j, mode))
                && p.vs == p0.vs + done
      invariant TookRepeat(d, m, start, n, mode) == count + TookRepeat(d, m, offset, n - j, mode)
      invariant DeepRepeat(d, m, start, n, mode, depth) <==> DeepRepeat(d, m, offset, n - j, mode, depth)
    {
      RepeatStep(d, m, offset, n - j, mode);
      DeepRepeatStep(d, m, offset, n - j, mode, depth);
      LevelEnds(l, pool.cells, pool.queue, p);
      ghost var part := BuildOne(d, m, offset, mode);
      var r;
      ok, last, r, aborted, p := AddOne(pool, d, m, offset, depth, mode, parent, last, l, p);
      if aborted || !ok {
        return;
      }
      JoinAssoc(done, part.ts, BuildRepeat(d, m, offset + Vsize(d), n - j - 1, mode));
      done := done + part.ts;
      count := count + r;
      if root == 0 {
        root := last;
      }
      offset := offset + Vsize(d);
      j := j + 1;
    }
    RepeatEnd(d, m, offset, n - j, mode);
    DeepRepeatStep(d, m, offset, n - j, mode, depth);
    JoinNone(done);
    LevelTaken(l, pool.cells, pool.queue, p);
  }

  lemma RepeatStep(d: Desc, m: Slots, off: nat, n: nat, mode: Mode)
    requires n > 0 && off in m
    ensures BuildRepeat(d, m, off, n, mode) == Join(BuildOne(d, m, off, mode), BuildRepeat(d, m, off + Vsize(d), n - 1, mode))
    ensures TookRepeat(d, m, off, n, mode)
            == TookOne(d, m, off, mode) + if BuildOne(d, m, off, mode) == Failed then 0 else TookRepeat(d, m, off + Vsize(d), n - 1, mode)
  {
    hide BuildOne, TookOne;
  }

  lemma DeepRepeatStep(d: Desc, m: Slots, off: nat, n: nat, mode: Mode, depth: nat)
    ensures DeepRepeat(d, m, off, n, mode, depth)
            <==> n > 0 && off in m
                 && (DeepOne(d, m, off, mode, depth)
                     || (BuildOne(d, m, off, mode) != Failed && DeepRepeat(d, m, off + Vsize(d), n - 1, mode, depth)))
  {
    hide BuildOne, DeepOne;
  }

  lemma RepeatEnd(d: Desc, m: Slots, off: nat, n: nat, mode: Mode)
    requires n == 0 || off !in m
    ensures BuildRepeat(d, m, off, n, mode) == Built([]) && TookRepeat(d, m, off, n, mode) == 0
  {}

  lemma BuildStep(ds: seq<Desc>, i: nat, m: Slots, offset: nat, mode: Mode)
    requires i < |ds|
    ensures BuildList(ds[i..], m, offset, mode) ==
            if i + 1 < |ds| && ds[i + 1].More? then
              Join(BuildRepeat(ds[i], m, offset, ds[i + 1].length, mode), BuildList(ds[i + 2..], m, SlotAt(offset, Vsize(ds[i]), ds[i + 1].length), mode))
            else
              Join(if offset in m then BuildOne(ds[i], m, offset, mode) else Built([]), BuildList(ds[i + 1..], m, offset + Vsize(ds[i]), mode))
  {
    hide BuildOne, BuildRepeat, BuildList, SlotAt, Join;
    var s := ds[i..];
    BuildCons(s, m, offset, mode);
    assert s[0] == ds[i] && s[1..] == ds[i + 1..];
    if i + 1 < |ds| { assert s[1] == ds[i + 1] && s[2..] == ds[i + 2..]; }
  }

  lemma BuildCons(s: seq<Desc>, m: Slots, offset: nat, mode: Mode)
    requires s != []
    ensures BuildList(s, m, offset, mode) ==
            if |s| > 1 && s[1].More? then
              Join(BuildRepeat(s[0], m, offset, s[1].length, mode), BuildList(s[2..], m, SlotAt(offset, Vsize(s[0]), s[1].length), mode))
            else
              Join(if offset in m then BuildOne(s[0], m, offset, mode) else Built([]), BuildList(s[1..], m, offset + Vsize(s[0]), mode))
  {
    hide BuildOne, BuildRepeat, SlotAt, Join;
  }

  lemma BuildEnd(ds: seq<Desc>, m: Slots, offset: nat, mode: Mode)
    ensures BuildList(ds[|ds|..], m, offset, mode) == Built([])
  {}

  lemma JoinAssoc(a: seq<Tlv>, b: seq<Tlv>, c: Built)
    ensures Join(Built(a), Join(Built(b), c)) == Join(Built(a + b), c)
  {
    if c.Built? { assert a + (b + c.ts) == (a + b) + c.ts; }
  }

  lemma JoinStart(c: Built)
    ensures Join(Built([]), c) == c
  {
    if c.Built? { assert [] + c.ts == c.ts; }
  }

  lemma JoinFails()
    ensures forall c: Built :: Join(Failed, c) == Failed && Join(c, Failed) == Failed
  {}

  lemma JoinNone(a: seq<Tlv>)
    ensures Join(Built(a), Built([])) == Built(a)
  {
    assert a + [] == a;
  }

  // ---------------------------------------------------------------- a whole message

  /** ogs_tlv_build_msg: the rendered elements, or failure if there is nothing to render.  Every
      node goes back to the pool after rendering; on failure those that were taken are lost. */
  method BuildMsg(pool: Pool, ds: seq<Desc>, m: Slots, mode: Mode) returns (ok: bool, buf: array<Byte>, aborted: bool)
    requires pool.Valid()
    modifies pool, pool.free, pool.index
    ensures aborted <==> ds != [] && (TookList(ds, m, 0, mode) > |old(pool.queue)| || DeepList(ds, m, 0, mode, 0))
    ensures !aborted ==> pool.Valid() && pool.size == old(pool.size)
    ensures !aborted ==> (ok <==> ds == [] || (BuildList(ds, m, 0, mode).Built? && BuildList(ds, m, 0, mode).ts != []))
    ensures !aborted && ok ==> buf[..] == if ds == [] then [] else Render(BuildList(ds, m, 0, mode).ts)
    ensures !aborted && ok ==> multiset(pool.queue) == multiset(old(pool.queue)) && pool.avail == old(pool.avail)
    ensures !aborted && !ok ==>
              TookList(ds, m, 0, mode) <= |old(pool.queue)| && pool.queue == old(pool.queue)[TookList(ds, m, 0, mode)..]
  {
    hide Pool.Valid, BuildList, Render, Length, TookList, DeepList, Level, StartOk, Carries, Rep, Order, NoDup, InRange;
    ok, aborted := true, false;
    buf := new Byte[0];
    if ds != [] {
      ghost var l := Start(pool.cells, pool.queue, 0);
      StartIs(pool);
      QueueFacts(pool);
      var root, r, dry, p := AddCompound(pool, ds, m, 0, 0, mode, 0, l);
      if dry {
        aborted := true;
        return;
      }
      if r == 0 || root == 0 {
        ok := false;
        return;
      }
      LevelTree(l, pool.cells, pool.queue, p);
      ghost var c := pool.cells;
      var length := CalcLength(pool, root, p.ts, p.vs);
      RelengthedChain(c, pool.cells, Order(p.ts), root, p.ts, p.vs);
      RenderLength(p.vs);
      buf := new Byte[length](_ => 0);
      c := pool.cells;
      var n := RenderInto(pool, root, buf, 0, length, p.ts, p.vs);
      RelengthedChain(c, pool.cells, Order(p.ts), root, p.ts, p.vs);
      assert buf[..] == buf[0..0 + |Render(p.vs)|];
      pool.FreeAll(root, p.ts);
      QueueFacts(pool);
      SameSize(pool.queue, l.queue);
    }
  }

  lemma StartIs(pool: Pool)
    requires pool.Valid()
    ensures StartOk(Start(pool.cells, pool.queue, 0))
  {}

  lemma LevelTree(l: Start, c: seq<Cell>, q: seq<nat>, p: Progress)
    requires StartOk(l) && Level(l, c, q, p)
    ensures Rep(c, p.root, p.ts) && Carries(c, p.ts, p.vs) && NoDup(Order(p.ts)) && forall k :: k in Order(p.ts) ==>
              k !in q
    ensures multiset(q + Order(p.ts)) == multiset(l.queue)
  {
    hide Order, Rep, Carries, NoDup, InRange;
    LevelNodes(l, c, q, p);
    assert l.queue == l.queue[..p.took] + q;
  }

  // ---------------------------------------------------------------- when nothing is lost

  /** The first slot that is present. */
  datatype First = NoField | Field(d: Desc, off: nat)

  function FirstPresent(ds: seq<Desc>, m: Slots, off: nat): First
    decreases |ds|
  {
    if ds == [] then NoField
    else if |ds| > 1 && ds[1].More? then
      if ds[1].length > 0 && off in m then Field(ds[0], off)
      else FirstPresent(ds[2..], m, SlotAt(off, Vsize(ds[0]), ds[1].length))
    else if off in m then Field(ds[0], off)
    else FirstPresent(ds[1..], m, off + Vsize(ds[0]))
  }

  /** No element is made of it: an empty string of variable length. */
  predicate Rejected(d: Desc, m: Slots, off: nat) {
    d.More? || (d.LeafDesc? && d.ctype == VarStr && off in m && Raw(m[off]) == [])
  }

  /** No node is taken exactly when there is nothing to build, or the first field is rejected. */
  lemma {:induction false} TookNothing(ds: seq<Desc>, m: Slots, off: nat, mode: Mode)
    ensures var f := FirstPresent(ds, m, off);
            TookList(ds, m, off, mode) == 0 <==> f.NoField? || Rejected(f.d, m, f.off)
    decreases |ds|
  {
    hide SlotAt, BuildOne, BuildRepeat, BuildList, TookOne, TookRepeat, Rejected;
    if ds == [] {
    } else if |ds| > 1 && ds[1].More? {
      RepeatNone(ds[0], m, off, ds[1].length, mode);
      if ds[1].length == 0 || off !in m {
        TookNothing(ds[2..], m, SlotAt(off, Vsize(ds[0]), ds[1].length), mode);
      }
    } else if off !in m {
      TookNothing(ds[1..], m, off + Vsize(ds[0]), mode);
    } else {
      OneNone(ds[0], m, off, mode);
    }
  }

  lemma OneNone(d: Desc, m: Slots, off: nat, mode: Mode)
    requires off in m
    ensures TookOne(d, m, off, mode) == 0 <==> Rejected(d, m, off)
    ensures Rejected(d, m, off) ==> BuildOne(d, m, off, mode) == Failed
  {
    hide LeafBytes, BuildList;
  }

  lemma RepeatNone(d: Desc, m: Slots, off: nat, n: nat, mode: Mode)
    ensures n == 0 || off !in m ==> BuildRepeat(d, m, off, n, mode) == Built([]) && TookRepeat(d, m, off, n, mode) == 0
    ensures n > 0 && off in m ==> (TookRepeat(d, m, off, n, mode) == 0 <==> Rejected(d, m, off))
    ensures n > 0 && off in m && Rejected(d, m, off) ==> BuildRepeat(d, m, off, n, mode) == Failed
  {
    hide BuildOne, BuildRepeat, TookOne, TookRepeat, Rejected;
    if n == 0 || off !in m {
      RepeatEnd(d, m, off, n, mode);
    } else {
      RepeatStep(d, m, off, n, mode);
      OneNone(d, m, off, mode);
    }
  }

  /** Building gives back every node it took exactly when it succeeds, or finds nothing to build,
      or fails at its first field.  `left` is what is left of the queue after a failure. */
  lemma LostExactly(ds: seq<Desc>, m: Slots, mode: Mode, queue: seq<nat>, left: seq<nat>)
    requires TookList(ds, m, 0, mode) <= |queue| && left == queue[TookList(ds, m, 0, mode)..]
    ensures var f := FirstPresent(ds, m, 0);
            multiset(left) == multiset(queue) <==> f.NoField? || Rejected(f.d, m, f.off)
  {
    hide TookList, FirstPresent, Rejected;
    TookNothing(ds, m, 0, mode);
    if multiset(left) == multiset(queue) { SameSize(left, queue); }
  }

  /** A number, then an empty string: building fails, and the node of the number is lost. */
  lemma NodeLost(mode: Mode)
    ensures var ds, m := [LeafDesc(Uint8, 1, 1, 0, 9), LeafDesc(VarStr, 2, 0, 0, 24)], map[0 := Num(7), 9 := Octets([])];
            BuildList(ds, m, 0, mode) == Failed && TookList(ds, m, 0, mode) == 1
  {
    var ds, m := [LeafDesc(Uint8, 1, 1, 0, 9), LeafDesc(VarStr, 2, 0, 0, 24)], map[0 := Num(7), 9 := Octets([])];
    assert ds[1..] == [ds[1]] && [ds[1]][1..] == [];
    assert BuildOne(ds[1], m, 9, mode) == Failed;
    assert BuildList(ds[1..], m, 9, mode) == Failed && TookList(ds[1..], m, 9, mode) == 0;
  }

  /** Sender and receiver: a packet is built and parsed into a zeroed message. */
  method Exchange(sender: Pool, receiver: Pool, ds: seq<Desc>, m: Slots, mode: Mode)
    returns (built: bool, parsed: bool, msg: Message, aborted: bool)
    requires sender.Valid() && receiver.Valid() && {sender} !! {receiver}
             && {sender.free, sender.index} !! {receiver.free, receiver.index}
    requires ds != [] && WellFormed(ds) && Sized(ds, m, 0)
             && (BuildList(ds, m, 0, mode).Built? ==> AllEncodable(BuildList(ds, m, 0, mode).ts, mode))
    modifies sender, sender.free, sender.index, receiver, receiver.free, receiver.index
    ensures aborted ==> TookList(ds, m, 0, mode) > |old(sender.queue)| || DeepList(ds, m, 0, mode, 0)
                        || receiver.queue == [] || Depth(ds) > MAX_DEPTH
    ensures !aborted ==> (built <==> BuildList(ds, m, 0, mode).Built? && BuildList(ds, m, 0, mode).ts != [])
    ensures !aborted && built ==> (parsed && msg.slots == Visited(ds, m, 0) <==> Ordered(ds, m, 0))
    ensures !aborted && built ==>
              multiset(sender.queue) == multiset(old(sender.queue))
              && multiset(receiver.queue) == multiset(old(receiver.queue))
  {
    hide Pool.Valid, BuildList, Render, TookList, DeepList, Depth, WellFormed, Sized, AllEncodable, ParseList, Elements, Fits,
         Visited, Ordered, Lies;
    msg := new Message();
    parsed := false;
    var buf;
    built, buf, aborted := BuildMsg(sender, ds, m, mode);
    if aborted || !built {
      return;
    }
    var bytes: seq<Byte> := buf[..];
    var data: Data := (i: nat) => if i < |bytes| then bytes[i] else 0;
    BytesLie(data, bytes);
    ghost var ts := BuildList(ds, m, 0, mode).ts;
    MessageRoundTrip(ds, m, ts, data, 0, mode);
    parsed, aborted := ParseMsg(receiver, msg, ds, data, 0, |bytes|, mode);
  }

  lemma BytesLie(data: Data, bytes: seq<Byte>)
    requires forall i :: 0 <= i < |bytes| ==> data(i) == bytes[i]
    ensures Lies(data, 0, bytes)
  {}
}
