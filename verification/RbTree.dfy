/** The intrusive red-black tree: nodes with parent, left and right links that the
    operations rewrite in place.  `Rep` and `PathRep` tie a snapshot of the links to the
    values of RbShape.  Where the C text writes a branch twice, once mirrored, the mirrored
    pair is one piece of code with a `Side` argument. */
module RbTree {
  import opened RbShape

  /** A tree node together with the fields of the timer that embeds it. */
  class Node {
    var parent: Node?
    var left: Node?
    var right: Node?
    var color: Color
    var timeout: int
    var running: bool

    constructor ()
      ensures !running
    {
      parent, left, right, color, timeout, running := null, null, null, Black, 0, false;
    }
  }

  /** The link fields of one node. */
  datatype Cell = Cell(parent: Node?, left: Node?, right: Node?, color: Color) {
    function Child(side: Side): Node? { if side == L then left else right }

    function WithChild(side: Side, n: Node?): Cell {
      if side == L then this.(left := n) else this.(right := n)
    }
  }

  type Mem = map<Node, Cell>

  ghost function RootOf(t: Tree<Node>): Node? { if t.Leaf? then null else t.elem }

  ghost function Above(p: Path<Node>, par: Node?): Node? { if p.Top? then par else p.elem }

  ghost function CellOf(side: Side, par: Node?, near: Node?, far: Node?, c: Color): Cell {
    if side == L then Cell(par, near, far, c) else Cell(par, far, near, c)
  }

  /** The links below `par` are those of the tree `t`. */
  ghost predicate Rep(t: Tree<Node>, par: Node?, m: Mem) {
    match t
    case Leaf => true
    case Bin(l, n, c, r) =>
      n in m && m[n] == Cell(par, RootOf(l), RootOf(r), c) && Rep(l, n, m) && Rep(r, n, m)
  }

  /** The links around a hole filled by `child` are those of `p`; the outermost node is
      `root` and its parent `par`. */
  ghost predicate PathRep(p: Path<Node>, child: Node?, root: Node?, par: Node?, m: Mem) {
    match p
    case Top => child == root
    case Step(side, x, c, sib, up) =>
      x in m && m[x] == CellOf(side, Above(up, par), child, RootOf(sib), c) &&
      Rep(sib, x, m) && PathRep(up, x, root, par, m)
  }

  /** The subtree `t` sits at the end of path `p` in the tree with root `root`. */
  ghost predicate At(p: Path<Node>, t: Tree<Node>, root: Node?, m: Mem) {
    Focus(p, t) && Rep(t, Above(p, null), m) && PathRep(p, RootOf(t), root, null, m)
  }

  // ---------------------------------------------------------------- snapshots

  /** `m'` differs from `m` at most in the cells of the nodes in `s`. */
  ghost predicate ChangedOnly(s: set<Node>, m: Mem, m': Mem) {
    m'.Keys == m.Keys && forall n :: n in m && n !in s ==> m'[n] == m[n]
  }

  lemma {:induction false} RepFrame(t: Tree<Node>, par: Node?, s: set<Node>, m: Mem, m': Mem)
    requires Rep(t, par, m) && Elems(t) !! s && ChangedOnly(s, m, m')
    ensures Rep(t, par, m')
  {
    if t.Bin? { RepFrame(t.left, t.elem, s, m, m'); RepFrame(t.right, t.elem, s, m, m'); }
  }

  lemma {:induction false} PathFrame(p: Path<Node>, child: Node?, root: Node?, par: Node?, s: set<Node>, m: Mem,
                                     m': Mem)
    requires PathRep(p, child, root, par, m) && PathElems(p) !! s && ChangedOnly(s, m, m')
    ensures PathRep(p, child, root, par, m')
    decreases p
  {
    if p.Step? {
      RepFrame(p.sib, p.elem, s, m, m');
      PathFrame(p.up, p.elem, root, par, s, m, m');
    }
  }

  /** A tree in memory is a subtree in memory plus its path in memory. */
  lemma {:induction false} RepPlug(p: Path<Node>, t: Tree<Node>, par: Node?, m: Mem)
    ensures Rep(Plug(p, t), par, m) <==>
            Rep(t, Above(p, par), m) && PathRep(p, RootOf(t), RootOf(Plug(p, t)), par, m)
    decreases p
  {
    match p
    case Top =>
    case Step(side, x, c, sib, up) => RepPlug(up, Join(side, t, x, c, sib), par, m);
  }

  lemma {:induction false} RepRestrict(t: Tree<Node>, par: Node?, m: Mem, m': Mem)
    requires Rep(t, par, m) && Elems(t) <= m'.Keys && forall n :: n in m' && n in m ==> m'[n] == m[n]
    ensures Rep(t, par, m')
  {
    if t.Bin? { RepRestrict(t.left, t.elem, m, m'); RepRestrict(t.right, t.elem, m, m'); }
  }

  lemma {:induction false} PathRootUnique(p: Path<Node>, child: Node?, r: Node?, r': Node?, par: Node?, m: Mem)
    requires PathRep(p, child, r, par, m)
    ensures PathRep(p, child, r', par, m) <==> r == r'
    decreases p
  {
    if p.Step? { PathRootUnique(p.up, p.elem, r, r', par, m); }
  }

  lemma AtPlug(p: Path<Node>, t: Tree<Node>, root: Node?, m: Mem)
    ensures At(p, t, root, m) <==> At(Top, Plug(p, t), root, m)
  {
    var whole := Plug(p, t);
    PlugDistinct(p, t);
    RepPlug(p, t, null, m);
    if PathRep(p, RootOf(t), root, null, m) { PathRootUnique(p, RootOf(t), root, RootOf(whole), null, m); }
  }

  /** Moving the focus: from the `side` child of `x` to `x`, and back down to either child. */
  lemma AtUp(side: Side, x: Node, c: Color, sib: Tree<Node>, up: Path<Node>, t: Tree<Node>, root: Node?, m: Mem)
    ensures At(Step(side, x, c, sib, up), t, root, m) <==> At(up, Join(side, t, x, c, sib), root, m)
    ensures Join(side.Other(), sib, x, c, t) == Join(side, t, x, c, sib)
  {
    AtPlug(Step(side, x, c, sib, up), t, root, m);
    AtPlug(up, Join(side, t, x, c, sib), root, m);
  }

  lemma AtRoot(t: Tree<Node>, root: Node?, m: Mem)
    requires At(Top, t, root, m)
    ensures root == RootOf(t)
  {}

  lemma TopAt(t: Tree<Node>, root: Node?, m: Mem)
    requires Distinct(t) && Rep(t, null, m) && root == RootOf(t)
    ensures At(Top, t, root, m)
  {}

  lemma AtDistinct(t: Tree<Node>, root: Node?, m: Mem)
    requires At(Top, t, root, m)
    ensures Distinct(t) && Rep(t, null, m)
  {}

  /** A subtree of the right subtree, seen from the whole tree. */
  lemma ComposeAt(q: Path<Node>, y: Node, c: Color, l: Tree<Node>, p: Path<Node>, t: Tree<Node>, root: Node?, m: Mem)
    requires At(p, Bin(l, y, c, Plug(q, t)), root, m)
    ensures At(Compose(q, Step(R, y, c, l, p)), t, root, m)
    ensures Plug(Compose(q, Step(R, y, c, l, p)), t) == Plug(p, Bin(l, y, c, Plug(q, t)))
    ensures Above(Compose(q, Step(R, y, c, l, p)), null) == Above(q, y)
  {
    var outer := Step(R, y, c, l, p);
    PlugCompose(q, outer, t);
    AtPlug(Compose(q, outer), t, root, m);
    AtPlug(p, Bin(l, y, c, Plug(q, t)), root, m);
  }

  // ---------------------------------------------------------------- single writes

  /** Hanging a subtree under another parent. */
  lemma RepReparent(t: Tree<Node>, was: Node?, par: Node?, s: set<Node>, m: Mem, m': Mem)
    requires t.Bin? && Distinct(t) && Rep(t, was, m) && ChangedOnly(s, m, m') && Elems(t) * s == {t.elem}
    requires m'[t.elem] == m[t.elem].(parent := par)
    ensures Rep(t, par, m')
  {
    RepFrame(t.left, t.elem, s, m, m');
    RepFrame(t.right, t.elem, s, m, m');
  }

  /** Painting the root of a subtree. */
  lemma RepPaint(t: Tree<Node>, par: Node?, c: Color, s: set<Node>, m: Mem, m': Mem)
    requires t.Bin? && Distinct(t) && Rep(t, par, m) && ChangedOnly(s, m, m') && Elems(t) * s == {t.elem}
    requires m'[t.elem] == m[t.elem].(color := c)
    ensures Rep(t.(color := c), par, m')
  {
    RepFrame(t.left, t.elem, s, m, m');
    RepFrame(t.right, t.elem, s, m, m');
  }

  /** Memory and root after `rb_change_child`. */
  ghost function ChildMem(p: Path<Node>, n: Node?, m: Mem): Mem
    requires p.Step? ==> p.elem in m
  {
    if p.Top? then m else m[p.elem := m[p.elem].WithChild(p.side, n)]
  }

  /** Filling the hole of a path with another node. */
  lemma PathRefill(p: Path<Node>, was: Node?, n: Node?, root: Node?, par: Node?, s: set<Node>, m: Mem, m': Mem)
    requires PathDistinct(p) && PathRep(p, was, root, par, m) && ChangedOnly(s, m, m')
    requires p.Step? ==> PathElems(p) * s == {p.elem} && m'[p.elem] == m[p.elem].WithChild(p.side, n)
    ensures PathRep(p, n, if p.Top? then n else root, par, m')
  {
    if p.Step? {
      RepFrame(p.sib, p.elem, s, m, m');
      PathFrame(p.up, p.elem, root, par, s, m, m');
    }
  }

  // ---------------------------------------------------------------- rotation

  lemma FocusJoin(p: Path<Node>, side: Side, t: Tree<Node>, x: Node, c: Color, sib: Tree<Node>)
    ensures Elems(Join(side, t, x, c, sib)) == Elems(t) + {x} + Elems(sib)
    ensures Focus(p, Join(side, t, x, c, sib)) <==>
            PathDistinct(p) && Distinct(t) && Distinct(sib) &&
            x !in Elems(t) && x !in Elems(sib) && x !in PathElems(p) &&
            Elems(t) !! Elems(sib) && Elems(t) !! PathElems(p) && Elems(sib) !! PathElems(p)
  {}

  lemma RepJoin(side: Side, t: Tree<Node>, x: Node, c: Color, sib: Tree<Node>, par: Node?, m: Mem)
    ensures Rep(Join(side, t, x, c, sib), par, m) <==>
            x in m && m[x] == CellOf(side, par, RootOf(t), RootOf(sib), c) && Rep(t, x, m) && Rep(sib, x, m)
  {}

  /** Memory after the six writes of a rotation at `x` towards `side`, in the order of the code. */
  ghost function RotateMem(p: Path<Node>, side: Side, x: Node, mid: Node?, y: Node, m: Mem): Mem
    requires x in m && y in m && (mid != null ==> mid in m) && (p.Step? ==> p.elem in m)
  {
    var m1 := m[x := m[x].WithChild(side.Other(), mid)];
    var m2 := if mid != null then m1[mid := m1[mid].(parent := x)] else m1;
    var m3 := ChildMem(p, y, m2);
    var m4 := m3[y := m3[y].(parent := Above(p, null))];
    var m5 := m4[y := m4[y].WithChild(side, x)];
    m5[x := m5[x].(parent := y)]
  }

  /** The links that a rotation at `x` reads. */
  ghost predicate Rotatable(p: Path<Node>, side: Side, x: Node, mid: Node?, y: Node, m: Mem) {
    x in m && y in m && x != y && (mid != null ==> mid in m && mid != x && mid != y) &&
    m[x].parent == Above(p, null) && m[x].Child(side.Other()) == y && m[y].Child(side) == mid &&
    (p.Step? ==> p.elem in m && p.elem != x && p.elem != y && p.elem != mid &&
                 m[p.elem].Child(p.side) == x && m[p.elem].Child(p.side.Other()) != x)
  }

  /** The parts around a node `x` and its far child `y` do not overlap. */
  ghost predicate Apart(p: Path<Node>, near: Tree<Node>, x: Node, mid: Tree<Node>, y: Node, far: Tree<Node>) {
    PathDistinct(p) && Distinct(near) && Distinct(mid) && Distinct(far) && x != y &&
    x !in PathElems(p) && x !in Elems(near) && x !in Elems(mid) && x !in Elems(far) &&
    y !in PathElems(p) && y !in Elems(near) && y !in Elems(mid) && y !in Elems(far) &&
    PathElems(p) !! Elems(near) && PathElems(p) !! Elems(mid) && PathElems(p) !! Elems(far) &&
    Elems(near) !! Elems(mid) && Elems(near) !! Elems(far) && Elems(mid) !! Elems(far)
  }

  /** The nodes whose cells a rotation changes. */
  ghost function RotateSet(p: Path<Node>, x: Node, mid: Node?, y: Node): set<Node> {
    {x, y} + (if mid == null then {} else {mid}) + (if p.Top? then {} else {p.elem})
  }

  lemma RotateCells(p: Path<Node>, side: Side, x: Node, c: Color, near: Node?, mid: Node?, y: Node, cy: Color,
                    far: Node?, m: Mem)
    requires Rotatable(p, side, x, mid, y, m)
    requires m[x] == CellOf(side, Above(p, null), near, y, c) && m[y] == CellOf(side, x, mid, far, cy)
    ensures var m' := RotateMem(p, side, x, mid, y, m);
            ChangedOnly(RotateSet(p, x, mid, y), m, m') &&
            m'[x] == CellOf(side, y, near, mid, c) && m'[y] == CellOf(side, Above(p, null), x, far, cy) &&
            (mid != null ==> m'[mid] == m[mid].(parent := x)) &&
            (p.Step? ==> m'[p.elem] == m[p.elem].WithChild(p.side, y))
  {}

  lemma RotateParts(p: Path<Node>, side: Side, near: Tree<Node>, x: Node,
                    mid: Tree<Node>, y: Node, far: Tree<Node>, root: Node?, m: Mem, m': Mem)
    requires Apart(p, near, x, mid, y, far) && ChangedOnly(RotateSet(p, x, RootOf(mid), y), m, m')
    requires Rep(near, x, m) && Rep(mid, y, m) && Rep(far, y, m) && PathRep(p, x, root, null, m)
    requires mid.Bin? ==> mid.elem in m && m'[mid.elem] == m[mid.elem].(parent := x)
    requires p.Step? ==> p.elem in m && m'[p.elem] == m[p.elem].WithChild(p.side, y)
    ensures Rep(near, x, m') && Rep(mid, x, m') && Rep(far, y, m')
    ensures PathRep(p, y, if p.Top? then y else root, null, m')
  {
    hide PathRep, Distinct, PathDistinct;
    var s := RotateSet(p, x, RootOf(mid), y);
    RepFrame(near, x, s, m, m');
    RepFrame(far, y, s, m, m');
    if mid.Bin? { RepReparent(mid, y, x, s, m, m'); }
    PathRefill(p, x, y, root, null, s, m, m');
  }

  lemma RotateReady(p: Path<Node>, side: Side, near: Tree<Node>, x: Node, c: Color,
                    mid: Tree<Node>, y: Node, cy: Color, far: Tree<Node>, root: Node?, m: Mem)
    requires Apart(p, near, x, mid, y, far)
    requires x in m && m[x] == CellOf(side, Above(p, null), RootOf(near), y, c)
    requires y in m && m[y] == CellOf(side, x, RootOf(mid), RootOf(far), cy)
    requires Rep(mid, y, m) && PathRep(p, x, root, null, m)
    ensures Rotatable(p, side, x, RootOf(mid), y, m)
  {
    hide Distinct, PathDistinct, Rep;
    RepMember(mid, y, m);
    assert mid.Bin? ==> mid.elem in Elems(mid);
    HoleReads(p, x, root, m);
    assert p.Step? ==> p.elem in PathElems(p);
  }

  lemma RotateClose(p: Path<Node>, side: Side, near: Tree<Node>, x: Node, c: Color,
                    mid: Tree<Node>, y: Node, cy: Color, far: Tree<Node>, root: Node?, m: Mem)
    requires Apart(p, near, x, mid, y, far)
    requires x in m && m[x] == CellOf(side, y, RootOf(near), RootOf(mid), c)
    requires y in m && m[y] == CellOf(side, Above(p, null), x, RootOf(far), cy)
    requires Rep(near, x, m) && Rep(mid, x, m) && Rep(far, y, m) && PathRep(p, y, root, null, m)
    ensures At(p, Join(side, Join(side, near, x, c, mid), y, cy, far), root, m)
  {
    hide Rep, PathRep, Distinct, PathDistinct, PathElems, Elems;
    FocusJoin(p, side, near, x, c, mid);
    FocusJoin(p, side, Join(side, near, x, c, mid), y, cy, far);
    RepJoin(side, near, x, c, mid, y, m);
    RepJoin(side, Join(side, near, x, c, mid), y, cy, far, Above(p, null), m);
  }

  lemma RotateOpen(p: Path<Node>, side: Side, near: Tree<Node>, x: Node, c: Color,
                   mid: Tree<Node>, y: Node, cy: Color, far: Tree<Node>, root: Node?, m: Mem)
    requires At(p, Join(side, near, x, c, Join(side, mid, y, cy, far)), root, m)
    ensures Apart(p, near, x, mid, y, far)
    ensures x in m && m[x] == CellOf(side, Above(p, null), RootOf(near), y, c)
    ensures y in m && m[y] == CellOf(side, x, RootOf(mid), RootOf(far), cy)
    ensures Rep(near, x, m) && Rep(mid, y, m) && Rep(far, y, m) && PathRep(p, x, root, null, m)
  {
    FocusJoin(p, side, near, x, c, Join(side, mid, y, cy, far));
    FocusJoin(p, side, mid, y, cy, far);
    RepJoin(side, near, x, c, Join(side, mid, y, cy, far), Above(p, null), m);
    RepJoin(side, mid, y, cy, far, x, m);
  }

  lemma LinkReads(p: Path<Node>, root: Node?, m: Mem)
    requires At(p, Leaf, root, m)
    ensures p.Step? ==> p.elem in m
  {}

  lemma LinkRep(p: Path<Node>, node: Node, root: Node?, m: Mem, m': Mem)
    requires At(p, Leaf, root, m) && node !in m && node !in PathElems(p) && (p.Step? ==> p.elem in m)
    requires m' == ChildMem(p, node, m[node := Cell(Above(p, null), null, null, Red)])
    ensures At(p, Bin(Leaf, node, Red, Leaf), if p.Top? then node else root, m')
  {
    var m1 := m[node := Cell(Above(p, null), null, null, Red)];
    PathExtend(p, null, root, null, m, m1);
    PathRefill(p, null, node, root, null, if p.Top? then {} else {p.elem}, m1, m');
  }

  lemma {:induction false} PathExtend(p: Path<Node>, child: Node?, root: Node?, par: Node?, m: Mem, m': Mem)
    requires PathRep(p, child, root, par, m) && forall n :: n in m ==> n in m' && m'[n] == m[n]
    ensures PathRep(p, child, root, par, m')
    decreases p
  {
    if p.Step? { RepExtend(p.sib, p.elem, m, m'); PathExtend(p.up, p.elem, root, par, m, m'); }
  }

  lemma {:induction false} RepExtend(t: Tree<Node>, par: Node?, m: Mem, m': Mem)
    requires Rep(t, par, m) && forall n :: n in m ==> n in m' && m'[n] == m[n]
    ensures Rep(t, par, m')
  {
    if t.Bin? { RepExtend(t.left, t.elem, m, m'); RepExtend(t.right, t.elem, m, m'); }
  }

  // ---------------------------------------------------------------- splicing

  lemma SpliceReads(p: Path<Node>, s: Tree<Node>, t: Tree<Node>, root: Node?, m: Mem)
    requires At(p, s, root, m) && s.Bin? && (t == s.left || t == s.right)
    ensures s.elem in m && m[s.elem].parent == Above(p, null) && (t.Bin? ==> t.elem in m)
    ensures p.Step? ==> p.elem in m && m[p.elem].Child(p.side) == s.elem && m[p.elem].Child(p.side.Other()) != s.elem
    ensures p.Step? && t.Bin? ==> p.elem != t.elem
  {
    assert Rep(t, s.elem, m);
    if p.Step? { assert p.sib.Bin? ==> p.sib.elem in PathElems(p); }
  }

  /** Memory after `rb_replace_node` at the hole of `p`. */
  ghost function ReplaceMem(p: Path<Node>, n: Node?, m: Mem): Mem
    requires (p.Step? ==> p.elem in m) && (n != null ==> n in m)
  {
    var m' := ChildMem(p, n, m);
    if n == null then m' else m'[n := m'[n].(parent := Above(p, null))]
  }

  lemma SpliceRep(p: Path<Node>, s: Tree<Node>, t: Tree<Node>, root: Node?, m: Mem, m': Mem)
    requires At(p, s, root, m) && s.Bin? && (t == s.left || t == s.right)
    requires (p.Step? ==> p.elem in m) && (t.Bin? ==> t.elem in m) && m' == ReplaceMem(p, RootOf(t), m)
    ensures At(p, t, if p.Top? then RootOf(t) else root, m')
  {
    var changed := (if p.Top? then {} else {p.elem}) + (if t.Leaf? then {} else {t.elem});
    assert ChangedOnly(changed, m, m');
    assert Elems(t) <= Elems(s) && Distinct(t) && Rep(t, s.elem, m);
    if t.Bin? { RepReparent(t, s.elem, Above(p, null), changed, m, m'); }
    PathRefill(p, s.elem, RootOf(t), root, null, changed, m, m');
  }

  /** Memory after the successor `y` of `x` has taken over the left subtree of `x`, whose root
      is `l`, and its own right child has taken its place below `q`. */
  ghost function DetachMem(q: Path<Node>, y: Node, l: Node, child: Node?, m: Mem): Mem
    requires y in m && l in m && (child != null ==> child in m) && (q.Step? ==> q.elem in m)
  {
    var m1 := m[y := m[y].(left := l)];
    var m2 := m1[l := m1[l].(parent := y)];
    if q.Top? then m2
    else
      var m3 := if child != null then m2[child := m2[child].(parent := q.elem)] else m2;
      m3[q.elem := m3[q.elem].(left := child)]
  }

  /** Memory after `y` has taken over the right subtree, the colour and the place of `x`. */
  ghost function AttachMem(p: Path<Node>, q: Path<Node>, y: Node, r: Node, c: Color, m: Mem): Mem
    requires y in m && r in m && (p.Step? ==> p.elem in m)
  {
    var m1 := if q.Top? then m else m[y := m[y].(right := r)];
    var m2 := if q.Top? then m1 else m1[r := m1[r].(parent := y)];
    var m3 := m2[y := m2[y].(color := c)];
    ReplaceMem(p, y, m3)
  }

  ghost predicate SuccApart(p: Path<Node>, l: Tree<Node>, x: Node, r: Tree<Node>, q: Path<Node>, y: Node,
                            rest: Tree<Node>) {
    PathDistinct(p) && Distinct(l) && Distinct(r) && x !in PathElems(p) && x !in Elems(l) && x !in Elems(r) &&
    Elems(l) !! Elems(r) && Elems(l) !! PathElems(p) && Elems(r) !! PathElems(p) &&
    PathDistinct(q) && Distinct(rest) && y !in Elems(rest) && y !in PathElems(q) && Elems(rest) !! PathElems(q) &&
    Elems(r) == PathElems(q) + {y} + Elems(rest)
  }

  lemma SuccOpenSets(p: Path<Node>, l: Tree<Node>, x: Node, c: Color, q: Path<Node>, y: Node, d: Color,
                     rest: Tree<Node>)
    requires Focus(p, Bin(l, x, c, Plug(q, Bin(Leaf, y, d, rest))))
    ensures SuccApart(p, l, x, Plug(q, Bin(Leaf, y, d, rest)), q, y, rest)
  {
    hide Plug, Distinct, PathDistinct, PathElems;
    var s := Bin(Leaf, y, d, rest);
    FocusJoin(p, L, l, x, c, Plug(q, s));
    PlugDistinct(q, s);
    PlugElems(q, s);
    FocusJoin(q, L, Leaf, y, d, rest);
    assert Elems(s) == {y} + Elems(rest);
  }

  lemma SuccOpen(p: Path<Node>, l: Tree<Node>, x: Node, c: Color, q: Path<Node>, y: Node, d: Color, rest: Tree<Node>,
                 root: Node?, m: Mem)
    requires At(p, Bin(l, x, c, Plug(q, Bin(Leaf, y, d, rest))), root, m)
    ensures var r := Plug(q, Bin(Leaf, y, d, rest));
            r.Bin? && (q.Top? ==> r.elem == y) && (q.Step? ==> r.elem in PathElems(q)) &&
            Rep(l, x, m) && Rep(r, x, m) && PathRep(p, x, root, null, m) &&
            x in m && m[x] == Cell(Above(p, null), RootOf(l), r.elem, c) &&
            y in m && m[y] == Cell(Above(q, x), null, RootOf(rest), d) && Rep(rest, y, m) &&
            PathRep(q, y, r.elem, x, m)
  {
    hide Rep, PathRep, Plug, Distinct, PathDistinct, PathElems, Elems;
    var s := Bin(Leaf, y, d, rest);
    var r := Plug(q, s);
    RepJoin(L, l, x, c, r, Above(p, null), m);
    PlugRoot(q, s);
    RepPlug(q, s, x, m);
    RepJoin(L, Leaf, y, d, rest, Above(q, x), m);
  }

  lemma SuccDetach(p: Path<Node>, l: Tree<Node>, x: Node, r: Tree<Node>, q: Path<Node>, y: Node, rest: Tree<Node>,
                   root: Node?, m: Mem, m': Mem)
    requires SuccApart(p, l, x, r, q, y, rest) && l.Bin? && AllLeft(q) && y in m && l.elem in m && x in m
    requires Rep(l, x, m) && PathRep(p, x, root, null, m) && Rep(rest, y, m) && PathRep(q, y, RootOf(r), x, m)
    requires (rest.Bin? ==> rest.elem in m) && (q.Step? ==> q.elem in m)
    requires m' == DetachMem(q, y, l.elem, RootOf(rest), m)
    ensures Rep(l, y, m') && PathRep(p, x, root, null, m') && m'.Keys == m.Keys && m'[x] == m[x]
    ensures m'[y] == m[y].(left := l.elem)
    ensures q.Top? ==> Rep(rest, y, m')
    ensures q.Step? ==> Rep(rest, q.elem, m') && PathRep(q, RootOf(rest), RootOf(r), x, m')
  {
    hide PathRep, Distinct, PathDistinct;
    var changed := {y, l.elem} + if q.Top? then {} else {q.elem} + if rest.Leaf? then {} else {rest.elem};
    assert q.Step? ==> q.elem in PathElems(q);
    assert ChangedOnly(changed, m, m');
    RepReparent(l, x, y, changed, m, m');
    PathFrame(p, x, root, null, changed, m, m');
    if q.Top? {
      RepFrame(rest, y, changed, m, m');
    } else {
      if rest.Bin? { RepReparent(rest, y, q.elem, changed, m, m'); }
      PathRefill(q, y, RootOf(rest), RootOf(r), x, changed, m, m');
    }
  }

  lemma SuccAttach(p: Path<Node>, l: Tree<Node>, x: Node, r': Tree<Node>, q: Path<Node>, y: Node, c: Color,
                   root: Node?, m: Mem, m': Mem)
    requires Focus(p, Bin(l, y, c, r')) && l.Bin? && (q.Step? ==> r'.Bin?)
    requires x !in PathElems(p) && x !in Elems(l) && x !in Elems(r')
    requires Rep(l, y, m) && PathRep(p, x, root, null, m) && Rep(r', if q.Top? then y else x, m)
    requires y in m && m[y].left == l.elem && (q.Top? ==> m[y].right == RootOf(r'))
    requires (p.Step? ==> p.elem in m) && (r'.Bin? ==> r'.elem in m)
    requires m' == AttachMem(p, q, y, if q.Top? then y else r'.elem, c, m)
    ensures At(p, Bin(l, y, c, r'), if p.Top? then y else root, m')
  {
    hide PathRep, Distinct, PathDistinct, Rep;
    FocusJoin(p, L, l, y, c, r');
    assert p.Step? ==> p.elem in PathElems(p);
    assert r'.Bin? ==> r'.elem in Elems(r');
    var changed := {y} + (if p.Top? then {} else {p.elem}) + (if q.Top? then {} else {r'.elem});
    assert ChangedOnly(changed, m, m');
    RepFrame(l, y, changed, m, m');
    if q.Top? {
      RepFrame(r', y, changed, m, m');
    } else {
      RepReparent(r', x, y, changed, m, m');
    }
    PathRefill(p, x, y, root, null, changed, m, m');
    RepJoin(L, l, y, c, r', Above(p, null), m');
  }

  lemma HoleReads(p: Path<Node>, child: Node, root: Node?, m: Mem)
    requires PathRep(p, child, root, null, m) && child !in PathElems(p)
    ensures p.Step? ==> p.elem in m && m[p.elem].Child(p.side) == child && m[p.elem].Child(p.side.Other()) != child
  {
    if p.Step? { assert p.sib.Bin? ==> p.sib.elem in PathElems(p); }
  }

  lemma SuccMembers(p: Path<Node>, l: Tree<Node>, x: Node, r: Tree<Node>, q: Path<Node>, y: Node, rest: Tree<Node>)
    requires SuccApart(p, l, x, r, q, y, rest) && l.Bin? && r.Bin?
    ensures y != x && y != l.elem && l.elem != x && r.elem != x && (q.Step? ==> q.elem != x && q.elem != y)
    ensures p.Step? ==> p.elem != x && p.elem != y && p.elem != r.elem && p.elem != l.elem &&
                        (q.Step? ==> p.elem != q.elem) && (rest.Bin? ==> p.elem != rest.elem)
  {
    hide Distinct, PathDistinct;
    assert l.elem in Elems(l) && r.elem in Elems(r) && (rest.Bin? ==> rest.elem in Elems(rest));
    assert q.Step? ==> q.elem in PathElems(q);
    assert p.Step? ==> p.elem in PathElems(p);
  }

  lemma InnerMember(q: Path<Node>, y: Node, root: Node?, par: Node?, m: Mem)
    requires PathRep(q, y, root, par, m)
    ensures q.Step? ==> q.elem in m
  {}

  lemma RepMember(t: Tree<Node>, par: Node?, m: Mem)
    requires Rep(t, par, m)
    ensures t.Bin? ==> t.elem in m
  {}

  lemma {:induction false} PlugRootSame(q: Path<Node>, t: Tree<Node>, t': Tree<Node>)
    requires q.Step?
    ensures RootOf(Plug(q, t)) == RootOf(Plug(q, t'))
    decreases q
  {
    var a, b := Join(q.side, t, q.elem, q.color, q.sib), Join(q.side, t', q.elem, q.color, q.sib);
    if q.up.Step? { PlugRootSame(q.up, a, b); } else { PlugRoot(Top, a); PlugRoot(Top, b); }
  }

  /** The right subtree without its first node. */
  lemma SuccRight(p: Path<Node>, l: Tree<Node>, x: Node, c: Color, r: Tree<Node>, q: Path<Node>, y: Node,
                  s: Tree<Node>, rest: Tree<Node>, m: Mem)
    requires SuccApart(p, l, x, r, q, y, rest) && r.Bin? && (q.Top? ==> Rep(rest, y, m)) && r == Plug(q, s)
    requires q.Step? ==> Rep(rest, q.elem, m) && PathRep(q, RootOf(rest), r.elem, x, m)
    ensures var r' := Plug(q, rest);
            Focus(p, Bin(l, y, c, r')) && x !in Elems(r') && (q.Top? ==> r' == rest) &&
            Rep(r', if q.Top? then y else x, m) && (q.Step? ==> r'.Bin? && r'.elem == r.elem)
  {
    hide Distinct, PathDistinct, Rep;
    var r' := Plug(q, rest);
    PlugElems(q, rest);
    PlugDistinct(q, rest);
    FocusJoin(p, L, l, y, c, r');
    RepPlug(q, rest, x, m);
    PlugRoot(q, rest);
    if q.Step? { PlugRootSame(q, s, rest); }
  }

  lemma {:induction false} PlugRoot(p: Path<Node>, t: Tree<Node>)
    ensures p.Top? ==> RootOf(Plug(p, t)) == RootOf(t)
    ensures p.Step? ==> Plug(p, t).Bin? && RootOf(Plug(p, t)) in PathElems(p)
    decreases p
  {
    match p
    case Top =>
    case Step(side, x, c, sib, up) => PlugRoot(up, Join(side, t, x, c, sib));
  }

  class RbTree {
    var root: Node?
    ghost var nodes: set<Node>
    ghost var shape: Tree<Node>

    ghost function Mem(): Mem
      reads this`nodes, nodes`parent, nodes`left, nodes`right, nodes`color
    {
      map n | n in nodes :: Cell(n.parent, n.left, n.right, n.color)
    }

    ghost predicate Valid()
      reads this, nodes`parent, nodes`left, nodes`right, nodes`color
    {
      Elems(shape) == nodes && At(Top, shape, root, Mem()) && RedBlack(shape)
    }

    constructor ()
      ensures Valid() && shape == Leaf
    {
      root, nodes, shape := null, {}, Leaf;
    }

    method SetParent(n: Node, v: Node?)
      requires n in nodes
      modifies n`parent
      ensures Mem() == old(Mem())[n := old(Mem())[n].(parent := v)]
    {
      n.parent := v;
    }

    method SetChild(n: Node, side: Side, v: Node?)
      requires n in nodes
      modifies n`left, n`right
      ensures Mem() == old(Mem())[n := old(Mem())[n].WithChild(side, v)]
    {
      if side == L { n.left := v; } else { n.right := v; }
    }

    method Paint(n: Node, c: Color)
      requires n in nodes
      modifies n`color
      ensures Mem() == old(Mem())[n := old(Mem())[n].(color := c)]
    {
      n.color := c;
    }

    function Child(n: Node, side: Side): Node?
      reads n
    {
      if side == L then n.left else n.right
    }

    /** `rb_change_child`: `parent` is the node above the path's hole, which holds `was`. */
    method ChangeChild(was: Node, n: Node?, parent: Node?, ghost p: Path<Node>)
      requires parent == Above(p, null)
      requires p.Step? ==>
                 p.elem in nodes && Mem()[p.elem].Child(p.side) == was && Mem()[p.elem].Child(p.side.Other()) != was
      modifies this`root, nodes`left, nodes`right
      ensures Mem() == ChildMem(p, n, old(Mem()))
      ensures root == if p.Top? then n else old(root)
    {
      if parent != null {
        if was == parent.left {
          SetChild(parent, L, n);
        } else {
          SetChild(parent, R, n);
        }
      } else {
        root := n;
      }
    }

    /** `rb_replace_node`. */
    method ReplaceNode(was: Node, n: Node?, parent: Node?, ghost p: Path<Node>)
      requires parent == Above(p, null) && (n != null ==> n in nodes)
      requires p.Step? ==>
                 p.elem in nodes && Mem()[p.elem].Child(p.side) == was && Mem()[p.elem].Child(p.side.Other()) != was
      modifies this`root, nodes`left, nodes`right, nodes`parent
      ensures var m := ChildMem(p, n, old(Mem()));
              Mem() == if n == null then m else m[n := m[n].(parent := parent)]
      ensures root == if p.Top? then n else old(root)
    {
      ChangeChild(was, n, parent, p);
      if n != null {
        SetParent(n, parent);
      }
    }

    /** The writes of `rb_rotate_left` (side L) and `rb_rotate_right` (side R). */
    method RotateLinks(node: Node, side: Side, ghost p: Path<Node>, ghost mid: Node?, ghost y: Node)
      requires Rotatable(p, side, node, mid, y, Mem())
      modifies this`root, nodes`left, nodes`right, nodes`parent
      ensures Mem() == RotateMem(p, side, node, mid, y, old(Mem()))
      ensures root == if p.Top? then y else old(root)
    {
      var z := Child(node, side.Other());
      var inner := Child(z, side);
      SetChild(node, side.Other(), inner);
      if inner != null {
        SetParent(inner, node);
      }
      ReplaceNode(node, z, node.parent, p);
      SetChild(z, side, node);
      SetParent(node, z);
    }

    method Rotate(node: Node, side: Side, ghost p: Path<Node>, ghost near: Tree<Node>, ghost c: Color,
                  ghost mid: Tree<Node>, ghost y: Node, ghost cy: Color, ghost far: Tree<Node>)
      requires At(p, Join(side, near, node, c, Join(side, mid, y, cy, far)), root, Mem())
      modifies this`root, nodes`left, nodes`right, nodes`parent
      ensures At(p, Join(side, Join(side, near, node, c, mid), y, cy, far), root, Mem())
    {
      hide Rep, PathRep, Distinct, PathDistinct, Elems, PathElems, Join, At, Apart, RotateMem, CellOf;
      RotateOpen(p, side, near, node, c, mid, y, cy, far, root, Mem());
      RotateReady(p, side, near, node, c, mid, y, cy, far, root, Mem());
      RotateCells(p, side, node, c, RootOf(near), RootOf(mid), y, cy, RootOf(far), Mem());
      ghost var m, r := Mem(), root;
      RotateLinks(node, side, p, RootOf(mid), y);
      RotateParts(p, side, near, node, mid, y, far, r, m, Mem());
      RotateClose(p, side, near, node, c, mid, y, cy, far, root, Mem());
    }

    /** Painting the root of the subtree in focus. */
    method PaintAt(n: Node, c: Color, ghost p: Path<Node>, ghost t: Tree<Node>)
      requires At(p, t, root, Mem()) && t.Bin? && t.elem == n
      modifies nodes`color
      ensures At(p, t.(color := c), root, Mem())
    {
      ghost var m := Mem();
      Paint(n, c);
      RepPaint(t, Above(p, null), c, {n}, m, Mem());
      PathFrame(p, n, root, null, {n}, m, Mem());
    }

    // -------------------------------------------------------------- insertion

    /** Red uncle: the three recolourings of the colour flip. */
    method InsertFlipColors(parent: Node, gparent: Node, uncle: Node, ghost p: Path<Node>, ghost t: Tree<Node>)
      requires At(p, t, root, Mem()) && p.Step? && p.up.Step? && IsRed(p.up.sib)
      requires parent == p.elem && gparent == p.up.elem && uncle == p.up.sib.elem
      modifies nodes`color
      ensures At(p.up.up, Join(p.up.side, Join(p.side, t, parent, Black, p.sib), gparent, Red, Blacken(p.up.sib)), root, Mem())
    {
      hide Rep, PathRep, Distinct, PathDistinct, Elems, PathElems, At, Focus, Mem;
      ghost var g := p.up;
      ghost var pt := Join(p.side, t, parent, p.color, p.sib);
      AtUp(p.side, parent, p.color, p.sib, g, t, root, Mem());
      AtUp(g.side, gparent, g.color, g.sib, g.up, pt, root, Mem());
      AtUp(g.side.Other(), gparent, g.color, pt, g.up, g.sib, root, Mem());
      ghost var q := Step(g.side.Other(), gparent, g.color, pt, g.up);
      PaintAt(uncle, Black, q, g.sib);
      ghost var u := Blacken(g.sib);
      AtUp(g.side.Other(), gparent, g.color, pt, g.up, u, root, Mem());
      AtUp(g.side, gparent, g.color, u, g.up, pt, root, Mem());
      PaintAt(parent, Black, Step(g.side, gparent, g.color, u, g.up), pt);
      ghost var pt' := Join(p.side, t, parent, Black, p.sib);
      AtUp(g.side, gparent, g.color, u, g.up, pt', root, Mem());
      PaintAt(gparent, Red, g.up, Join(g.side, pt', gparent, g.color, u));
    }

    /** Inner child: the rotation at the parent. */
    method InsertTurnInner(parent: Node, side: Side, ghost p: Path<Node>, ghost t: Tree<Node>, ghost near: Tree<Node>,
                           ghost far: Tree<Node>)
      requires At(p, t, root, Mem()) && Inserting(p, t) && ParentRed(p) && parent == p.elem && side == p.side.Other()
      requires t == Join(p.side, far, t.elem, Red, near)
      modifies this`root, nodes`left, nodes`right, nodes`parent
      ensures At(Step(p.side.Other(), t.elem, Red, far, p.up), Join(p.side, near, parent, Red, p.sib), root, Mem())
    {
      hide Rep, PathRep, Distinct, PathDistinct, Elems, PathElems, At, Focus, Mem;
      AtUp(p.side, parent, Red, p.sib, p.up, t, root, Mem());
      Rotate(parent, side, p.up, p.sib, Red, near, t.elem, Red, far);
      AtUp(side, t.elem, Red, far, p.up, Join(p.side, near, parent, Red, p.sib), root, Mem());
    }

    /** Outer child, black uncle: two recolourings and the rotation at the grandparent. */
    method InsertRotateOuter(parent: Node, gparent: Node, side: Side, ghost p: Path<Node>, ghost t: Tree<Node>)
      requires At(p, t, root, Mem()) && ParentRed(p) && p.up.Step? && p.side == p.up.side
      requires parent == p.elem && gparent == p.up.elem && side == p.side.Other()
      modifies this`root, nodes`left, nodes`right, nodes`parent, nodes`color
      ensures At(Step(p.side, parent, Black, Join(p.side, p.sib, gparent, Red, p.up.sib), p.up.up), t, root, Mem())
    {
      hide Rep, PathRep, Distinct, PathDistinct, Elems, PathElems, At, Focus, Mem;
      ghost var g := p.up;
      AtUp(p.side, parent, p.color, p.sib, g, t, root, Mem());
      PaintAt(parent, Black, g, Join(p.side, t, parent, p.color, p.sib));
      ghost var pt := Join(p.side, t, parent, Black, p.sib);
      AtUp(g.side, gparent, g.color, g.sib, g.up, pt, root, Mem());
      PaintAt(gparent, Red, g.up, Join(g.side, pt, gparent, g.color, g.sib));
      Rotate(gparent, side, g.up, g.sib, Red, p.sib, parent, Black, t);
      AtUp(p.side, parent, Black, Join(p.side, p.sib, gparent, Red, g.sib), g.up, t, root, Mem());
    }

    ghost predicate InsertAround(p: Path<Node>, t: Tree<Node>)
      requires p.Step? && t.Bin? && p.elem in nodes
      reads this, nodes
    {
      p.up.Step? && p.up.elem in nodes && p.elem.parent == p.up.elem &&
      Child(p.up.elem, p.up.side) == p.elem && Child(p.up.elem, p.up.side.Other()) == RootOf(p.up.sib) &&
      Child(p.up.elem, p.up.side.Other()) != p.elem &&
      Child(p.elem, p.side) == t.elem && Child(p.elem, p.side.Other()) != t.elem &&
      (p.up.sib.Bin? ==> p.up.sib.elem in nodes && p.up.sib.elem.color == p.up.sib.color)
    }

    /** The links that the insertion loop reads around its node. */
    lemma InsertReads(p: Path<Node>, t: Tree<Node>)
      requires At(p, t, root, Mem()) && Inserting(p, t)
      ensures IsRed(t) && t.elem in nodes && t.elem.parent == Above(p, null)
      ensures p.Step? ==> p.elem in nodes && p.elem.color == p.color
      ensures ParentRed(p) ==> InsertAround(p, t)
    {
      if ParentRed(p) {
        GrandparentExists(p, t);
        assert PathRep(p.up, p.elem, root, null, Mem());
        assert p.up.sib.Bin? ==> p.up.sib.elem in Elems(p.up.sib);
        assert p.sib.Bin? ==> p.sib.elem in Elems(p.sib);
        assert PathDistinct(p.up);
        assert Elems(p.up.sib) <= PathElems(p.up);
      }
    }

    /** `ogs_rbtree_insert_color` on a node that has just been linked. */
    method InsertColor(rbNode: Node, ghost p0: Path<Node>, ghost t0: Tree<Node>)
      requires At(p0, t0, root, Mem()) && Inserting(p0, t0) && t0.elem == rbNode
      requires Elems(Plug(p0, t0)) == nodes
      modifies this`root, this`shape, nodes`left, nodes`right, nodes`parent, nodes`color
      ensures Valid() && InOrder(shape) == InOrder(Plug(p0, t0))
    {
      hide Rep, PathRep, Distinct, PathDistinct, Elems, PathElems, At, Focus, Mem, Inserting, Plug, InOrder, RedBlack;
      var node := rbNode;
      ghost var p, t := p0, t0;
      InsertReads(p, t);
      while node.parent != null && node.parent.color == Red
        invariant At(p, t, root, Mem()) && Inserting(p, t) && IsRed(t) && t.elem == node && node in nodes
        invariant node.parent == Above(p, null) && (p.Step? ==> p.elem in nodes && p.elem.color == p.color)
        invariant InOrder(Plug(p, t)) == InOrder(Plug(p0, t0))
        decreases Depth(p)
      {
        InsertReads(p, t);
        var parent := node.parent;
        var gparent := parent.parent;
        assert gparent != null;
        var side := if parent == gparent.left then L else R;
        assert side == p.up.side;
        assert Depth(p) == 1 + Depth(p.up) && Depth(p.up) == 1 + Depth(p.up.up);
        var uncle := Child(gparent, side.Other());
        if uncle != null && uncle.color == Red {
          InsertFlip(p, t);
          InsertFlipColors(parent, gparent, uncle, p, t);
          ghost var t' := Join(p.up.side, Join(p.side, t, parent, Black, p.sib), gparent, Red, Blacken(p.up.sib));
          FlipOrder(p, t, t');
          node := gparent;
          p, t := p.up.up, t';
        } else {
          if node == Child(parent, side.Other()) {
            ghost var near := if p.side == L then t.right else t.left;
            ghost var far := if p.side == L then t.left else t.right;
            InsertTurn(p, t, near, far);
            InsertTurnInner(parent, side, p, t, near, far);
            TurnOrder(p, t, near, far);
            node := parent;
            p, t := Step(side, t.elem, Red, far, p.up), Join(p.side, near, parent, Red, p.sib);
            InsertReads(p, t);
          }
          InsertFinish(p, t);
          InsertRotateOuter(node.parent, gparent, side.Other(), p, t);
          FinishOrder(p, t);
          p := Step(p.side, p.elem, Black, Join(p.side, p.sib, gparent, Red, p.up.sib), p.up.up);
        }
        InsertReads(p, t);
      }
      InsertEnd(p, t, Plug(p0, t0));
    }

    method InsertEnd(ghost p: Path<Node>, ghost t: Tree<Node>, ghost t0: Tree<Node>)
      requires At(p, t, root, Mem()) && Inserting(p, t) && t.Bin? && !ParentRed(p)
      requires Elems(t0) == nodes && InOrder(Plug(p, t)) == InOrder(t0)
      modifies this`shape, nodes`color
      ensures Valid() && InOrder(shape) == InOrder(t0)
    {
      hide Rep, PathRep, Distinct, PathDistinct, Inserting, Plug;
      InsertDone(p, t);
      AtPlug(p, t, root, Mem());
      PlugNonempty(p, t);
      shape := Plug(p, t);
      AtRoot(shape, root, Mem());
      assert root != null;
      PaintAt(root, Black, Top, shape);
      shape := Blacken(shape);
      ElemsOfInOrder(shape); ElemsOfInOrder(t0);
    }

    // -------------------------------------------------------------- deletion

    /** `rb_is_black`: a missing node is black. */
    predicate IsBlack(n: Node?)
      reads n
    {
      n == null || n.color == Black
    }

    /** Case 1, red sibling: two recolourings and the rotation at the parent. */
    method DeleteCase1(parent: Node, sibling: Node, side: Side, ghost p: Path<Node>, ghost t: Tree<Node>,
                       ghost near: Tree<Node>, ghost far: Tree<Node>)
      requires At(p, t, root, Mem()) && p.Step? && p.side == side && p.elem == parent
      requires p.sib == Join(side, near, sibling, Red, far)
      modifies this`root, nodes`left, nodes`right, nodes`parent, nodes`color
      ensures At(Step(side, parent, Red, near, Step(side, sibling, Black, far, p.up)), t, root, Mem())
    {
      hide Rep, PathRep, Distinct, PathDistinct, Elems, PathElems, At, Focus, Mem;
      AtUp(side, parent, p.color, p.sib, p.up, t, root, Mem());
      AtUp(side.Other(), parent, p.color, t, p.up, p.sib, root, Mem());
      PaintAt(sibling, Black, Step(side.Other(), parent, p.color, t, p.up), p.sib);
      ghost var sib := Join(side, near, sibling, Black, far);
      AtUp(side.Other(), parent, p.color, t, p.up, sib, root, Mem());
      PaintAt(parent, Red, p.up, Join(side, t, parent, p.color, sib));
      Rotate(parent, side, p.up, t, Red, near, sibling, Black, far);
      AtUp(side, sibling, Black, far, p.up, Join(side, t, parent, Red, near), root, Mem());
      AtUp(side, parent, Red, near, Step(side, sibling, Black, far, p.up), t, root, Mem());
    }

    /** Case 2, black sibling with black children: the sibling turns red. */
    method DeleteCase2(sibling: Node, ghost p: Path<Node>, ghost t: Tree<Node>)
      requires At(p, t, root, Mem()) && p.Step? && p.sib.Bin? && p.sib.elem == sibling
      modifies nodes`color
      ensures At(p.up, Join(p.side, t, p.elem, p.color, p.sib.(color := Red)), root, Mem())
    {
      hide Rep, PathRep, Distinct, PathDistinct, Elems, PathElems, At, Focus, Mem;
      AtUp(p.side, p.elem, p.color, p.sib, p.up, t, root, Mem());
      AtUp(p.side.Other(), p.elem, p.color, t, p.up, p.sib, root, Mem());
      PaintAt(sibling, Red, Step(p.side.Other(), p.elem, p.color, t, p.up), p.sib);
      AtUp(p.side.Other(), p.elem, p.color, t, p.up, p.sib.(color := Red), root, Mem());
    }

    /** Case 3, red near nephew: two recolourings and the rotation at the sibling. */
    method DeleteCase3(sibling: Node, nephew: Node, side: Side, ghost p: Path<Node>, ghost t: Tree<Node>,
                       ghost a: Tree<Node>, ghost b: Tree<Node>, ghost far: Tree<Node>)
      requires At(p, t, root, Mem()) && p.Step? && p.side == side
      requires p.sib == Join(side, Join(side, a, nephew, Red, b), sibling, Black, far)
      modifies this`root, nodes`left, nodes`right, nodes`parent, nodes`color
      ensures At(p.(sib := Join(side, a, nephew, Black, Join(side, b, sibling, Red, far))), t, root, Mem())
    {
      hide Rep, PathRep, Distinct, PathDistinct, Elems, PathElems, At, Focus, Mem;
      ghost var q := Step(side.Other(), p.elem, p.color, t, p.up);
      ghost var near := Join(side, a, nephew, Red, b);
      AtUp(side, p.elem, p.color, p.sib, p.up, t, root, Mem());
      AtUp(side.Other(), p.elem, p.color, t, p.up, p.sib, root, Mem());
      AtUp(side, sibling, Black, far, q, near, root, Mem());
      PaintAt(nephew, Black, Step(side, sibling, Black, far, q), near);
      ghost var near' := Join(side, a, nephew, Black, b);
      AtUp(side, sibling, Black, far, q, near', root, Mem());
      PaintAt(sibling, Red, q, Join(side, near', sibling, Black, far));
      Rotate(sibling, side.Other(), q, far, Red, b, nephew, Black, a);
      ghost var sib := Join(side, a, nephew, Black, Join(side, b, sibling, Red, far));
      AtUp(side.Other(), p.elem, p.color, t, p.up, sib, root, Mem());
      AtUp(side, p.elem, p.color, sib, p.up, t, root, Mem());
    }

    /** Case 4, red far nephew: three recolourings and the rotation at the parent. */
    method DeleteCase4(parent: Node, sibling: Node, nephew: Node, side: Side, ghost p: Path<Node>, ghost t: Tree<Node>,
                       ghost near: Tree<Node>, ghost far: Tree<Node>)
      requires At(p, t, root, Mem()) && p.Step? && p.side == side && p.elem == parent && parent in nodes
               && parent.color == p.color
      requires p.sib == Join(side, near, sibling, Black, far) && far.Bin? && far.elem == nephew
      modifies this`root, nodes`left, nodes`right, nodes`parent, nodes`color
      ensures At(p.up, Join(side, Join(side, t, parent, Black, near), sibling, p.color, Blacken(far)), root, Mem())
    {
      hide Rep, PathRep, Distinct, PathDistinct, Elems, PathElems, At, Focus, Mem;
      ghost var q := Step(side.Other(), parent, p.color, t, p.up);
      AtUp(side, parent, p.color, p.sib, p.up, t, root, Mem());
      AtUp(side.Other(), parent, p.color, t, p.up, p.sib, root, Mem());
      PaintAt(sibling, parent.color, q, p.sib);
      ghost var sib := Join(side, near, sibling, p.color, far);
      AtUp(side.Other(), parent, p.color, t, p.up, sib, root, Mem());
      PaintAt(parent, Black, p.up, Join(side, t, parent, p.color, sib));
      ghost var q' := Step(side.Other(), parent, Black, t, p.up);
      AtUp(side.Other(), parent, Black, t, p.up, sib, root, Mem());
      AtUp(side.Other(), sibling, p.color, near, q', far, root, Mem());
      PaintAt(nephew, Black, Step(side.Other(), sibling, p.color, near, q'), far);
      AtUp(side.Other(), sibling, p.color, near, q', Blacken(far), root, Mem());
      AtUp(side.Other(), parent, Black, t, p.up, Join(side, near, sibling, p.color, Blacken(far)), root, Mem());
      Rotate(parent, side, p.up, t, Black, near, sibling, p.color, Blacken(far));
    }

    ghost predicate DeleteAround(p: Path<Node>, t: Tree<Node>)
      requires p.Step? && p.sib.Bin?
      reads this, nodes
    {
      p.elem in nodes && p.elem.color == p.color && p.elem.parent == Above(p.up, null) &&
      Child(p.elem, p.side) == RootOf(t) && Child(p.elem, p.side.Other()) == p.sib.elem && p.sib.elem != RootOf(t) &&
      p.sib.elem in nodes && p.sib.elem.color == p.sib.color &&
      p.sib.elem.left == RootOf(p.sib.left) && p.sib.elem.right == RootOf(p.sib.right) &&
      (p.sib.left.Bin? ==> p.sib.left.elem in nodes && p.sib.left.elem.color == p.sib.left.color) &&
      (p.sib.right.Bin? ==> p.sib.right.elem in nodes && p.sib.right.elem.color == p.sib.right.color)
    }

    /** The links that the deletion loop reads around its node; the sibling always exists. */
    lemma DeleteReads(p: Path<Node>, t: Tree<Node>)
      requires At(p, t, root, Mem()) && Deleting(p, t)
      ensures t.Bin? ==> t.elem in nodes && t.elem.color == t.color && t.elem.parent == Above(p, null)
      ensures root == RootOf(t) <==> p.Top?
      ensures p.Step? ==> p.sib.Bin? && DeleteAround(p, t)
    {
      hide Balanced, NoRedRed, PathBalanced, PathNoRedRed;
      AtPlug(p, t, root, Mem());
      AtRoot(Plug(p, t), root, Mem());
      PlugRoot(p, t);
      if p.Step? {
        SiblingExists(p, t);
        assert Rep(p.sib, p.elem, Mem());
        assert Rep(p.sib.left, p.sib.elem, Mem()) && Rep(p.sib.right, p.sib.elem, Mem());
        assert p.sib.elem in Elems(p.sib);
      }
    }

    /** The sibling of the loop's node, made black by case 1 where it is red. */
    method BlackSibling(parent: Node, side: Side, ghost p0: Path<Node>, ghost t: Tree<Node>)
      returns (sibling: Node, ghost p: Path<Node>)
      requires At(p0, t, root, Mem()) && Deleting(p0, t) && p0.Step? && p0.sib.Bin? && DeleteAround(p0, t)
      requires p0.side == side && p0.elem == parent
      modifies this`root, nodes`left, nodes`right, nodes`parent, nodes`color
      ensures At(p, t, root, Mem()) && Deleting(p, t) && InOrder(Plug(p, t)) == InOrder(Plug(p0, t))
      ensures p.Step? && p.sib.Bin? && p.sib.color == Black && DeleteAround(p, t)
      ensures p.side == side && p.elem == parent && p.sib.elem == sibling
      ensures p == p0 || p.color == Red
    {
      hide Rep, PathRep, Distinct, PathDistinct, Elems, PathElems, At, Focus, Mem, Deleting, Plug, InOrder, RedBlack;
      p := p0;
      sibling := Child(parent, side.Other());
      if sibling.color == Red {
        ghost var near := if side == L then p.sib.left else p.sib.right;
        ghost var far := if side == L then p.sib.right else p.sib.left;
        DeleteRedSibling(p, t, near, far);
        DeleteCase1(parent, sibling, side, p, t, near, far);
        RedSiblingOrder(p, t, near, far);
        p := Step(side, parent, Red, near, Step(side, sibling, Black, far, p.up));
        DeleteReads(p, t);
        sibling := Child(parent, side.Other());
      }
    }

    /** Cases 3 and 4: the missing black is paid by rotations; the whole tree is in order again. */
    method DeleteRotate(parent: Node, sibling0: Node, side: Side, ghost p0: Path<Node>, ghost t: Tree<Node>)
      returns (ghost w: Tree<Node>)
      requires At(p0, t, root, Mem()) && Deleting(p0, t) && !IsRed(t)
      requires p0.Step? && p0.sib.Bin? && DeleteAround(p0, t)
      requires p0.side == side && p0.elem == parent && p0.sib.elem == sibling0 && p0.sib.color == Black
      requires IsRed(p0.sib.left) || IsRed(p0.sib.right)
      modifies this`root, nodes`left, nodes`right, nodes`parent, nodes`color
      ensures At(Top, w, root, Mem()) && RedBlack(w) && InOrder(w) == InOrder(Plug(p0, t))
    {
      hide Rep, PathRep, Distinct, PathDistinct, Elems, PathElems, At, Focus, Mem, Deleting, Plug, InOrder, RedBlack;
      var sibling := sibling0;
      ghost var p := p0;
      if IsBlack(Child(sibling, side.Other())) {
        ghost var near := if side == L then p.sib.left else p.sib.right;
        ghost var far := if side == L then p.sib.right else p.sib.left;
        ghost var a := if side == L then near.left else near.right;
        ghost var b := if side == L then near.right else near.left;
        DeleteTurn(p, t, a, near.elem, b, far);
        DeleteCase3(sibling, Child(sibling, side), side, p, t, a, b, far);
        ghost var sib := Join(side, a, near.elem, Black, Join(side, b, sibling, Red, far));
        RotateSameOrder(side.Other(), far, sibling, Black, Red, b, near.elem, Red, Black, a);
        SiblingOrder(p, t, sib);
        p := p.(sib := sib);
        DeleteReads(p, t);
        sibling := Child(parent, side.Other());
      }
      ghost var near := if side == L then p.sib.left else p.sib.right;
      ghost var far := if side == L then p.sib.right else p.sib.left;
      DeleteFinish(p, t, near, far);
      DeleteCase4(parent, sibling, Child(sibling, side.Other()), side, p, t, near, far);
      FarNephewOrder(p, t, near, far);
      ghost var top := Join(side, Join(side, t, parent, Black, near), sibling, p.color, Blacken(far));
      w := Plug(p.up, top);
      AtPlug(p.up, top, root, Mem());
    }

    method DeleteEnd(node: Node?, ghost p: Path<Node>, ghost t: Tree<Node>, ghost t0: Tree<Node>)
      requires At(p, t, root, Mem()) && Deleting(p, t) && node == RootOf(t) && (p.Top? || IsRed(t))
      requires Elems(t0) == nodes && InOrder(Plug(p, t)) == InOrder(t0)
      modifies this`shape, nodes`color
      ensures Valid() && InOrder(shape) == InOrder(t0)
    {
      hide Rep, PathRep, Distinct, PathDistinct, Deleting, Plug;
      DeleteDone(p, t);
      if node != null {
        PaintAt(node, Black, p, t);
      }
      shape := Plug(p, Blacken(t));
      AtPlug(p, Blacken(t), root, Mem());
      PlugSameOrder(p, t, Blacken(t));
      ElemsOfInOrder(shape); ElemsOfInOrder(t0);
    }

    /** `rb_delete_color`: `node`, possibly null, is the root of a subtree that is one black short. */
    method DeleteColor(node0: Node?, parent0: Node?, ghost p0: Path<Node>, ghost t0: Tree<Node>)
      requires At(p0, t0, root, Mem()) && Deleting(p0, t0)
      requires node0 == RootOf(t0) && parent0 == Above(p0, null)
      requires Elems(Plug(p0, t0)) == nodes
      modifies this`root, this`shape, nodes`left, nodes`right, nodes`parent, nodes`color
      ensures Valid() && InOrder(shape) == InOrder(Plug(p0, t0))
    {
      hide Rep, PathRep, Distinct, PathDistinct, Elems, PathElems, At, Focus, Mem, Deleting, Plug, InOrder, RedBlack;
      var node, parent := node0, parent0;
      ghost var p, t := p0, t0;
      DeleteReads(p, t);
      while node != root && IsBlack(node)
        invariant At(p, t, root, Mem()) && Deleting(p, t) && node == RootOf(t) && (p.Step? ==> parent == p.elem)
        invariant t.Bin? ==> t.elem in nodes && t.elem.color == t.color
        invariant root == node <==> p.Top?
        invariant InOrder(Plug(p, t)) == InOrder(Plug(p0, t0))
        decreases if IsRed(t) then 0 else Depth(p) + 1
      {
        DeleteReads(p, t);
        var side := if node == parent.left then L else R;
        var sibling;
        sibling, p := BlackSibling(parent, side, p, t);
        if IsBlack(sibling.left) && IsBlack(sibling.right) {
          DeleteFlip(p, t);
          DeleteCase2(sibling, p, t);
          PaintOrder(p.sib, Red);
          SiblingOrder(p, t, p.sib.(color := Red));
          p, t := p.up, Join(side, t, parent, p.color, p.sib.(color := Red));
          node := parent;
          DeleteReads(p, t);
          parent := node.parent;
        } else {
          ghost var w := DeleteRotate(parent, sibling, side, p, t);
          node := root;
          DeletingWhole(w);
          PlugTop(w);
          DeleteReads(Top, w);
          p, t := Top, w;
        }
      }
      DeleteEnd(node, p, t, Plug(p0, t0));
    }

    /** `ogs_rbtree_min`: the leftmost node below `rbNode`, and the path that leads to it. */
    method Min(rbNode: Node, ghost t: Tree<Node>, ghost par: Node?)
      returns (node: Node, ghost q: Path<Node>, ghost s: Tree<Node>)
      requires t.Bin? && t.elem == rbNode && Rep(t, par, Mem())
      ensures Plug(q, s) == t && AllLeft(q) && s.Bin? && s.left.Leaf? && s.elem == node
    {
      node, q, s := rbNode, Top, t;
      ghost var up := par;
      while node.left != null
        invariant Plug(q, s) == t && AllLeft(q) && s.Bin? && s.elem == node && Rep(s, up, Mem()) && node in nodes
        decreases s
      {
        assert Rep(s.left, node, Mem());
        q, s, up := Step(L, s.elem, s.color, s.right, q), s.left, node;
        node := node.left;
      }
    }

    /** A node with a missing child gives its place to the other child. */
    method SpliceNode(node: Node, child: Node?, ghost p: Path<Node>, ghost s: Tree<Node>, ghost t: Tree<Node>)
      requires At(p, s, root, Mem()) && s.Bin? && s.elem == node && child == RootOf(t)
      requires (s.left.Leaf? && t == s.right) || (s.right.Leaf? && t == s.left)
      modifies this`root, nodes`left, nodes`right, nodes`parent
      ensures At(p, t, root, Mem())
    {
      ghost var m, r := Mem(), root;
      SpliceReads(p, s, t, root, m);
      ReplaceNode(node, child, node.parent, p);
      SpliceRep(p, s, t, r, m, Mem());
    }

    /** The successor `succ` of `node` takes over the left subtree; its right child moves up. */
    method SuccDetachLinks(node: Node, succ: Node, ghost q: Path<Node>, ghost l: Node)
      returns (child: Node?, parent: Node)
      requires node in nodes && succ in nodes && l in nodes && node.left == l && succ != l && l != node && succ != node
      requires (succ.right != null ==> succ.right in nodes) && succ.parent == Above(q, node) && AllLeft(q)
      requires q.Step? ==> q.elem in nodes && q.elem != node
      modifies nodes`left, nodes`right, nodes`parent
      ensures child == old(succ.right) && parent == (if q.Top? then succ else q.elem)
      ensures Mem() == DetachMem(q, succ, l, child, old(Mem()))
    {
      child := succ.right;
      parent := succ.parent;
      SetChild(succ, L, node.left);
      SetParent(node.left, succ);
      if parent == node {
        parent := succ;
      } else {
        if child != null {
          SetParent(child, parent);
        }
        SetChild(parent, L, child);
      }
    }

    /** `succ` takes over the right subtree, the colour and the place of `node`. */
    method SuccAttachLinks(node: Node, succ: Node, parent: Node, ghost p: Path<Node>, ghost q: Path<Node>,
                           ghost r: Node)
      requires node in nodes && succ in nodes && succ != node && r in nodes && node.right == r && r != node
      requires parent == (if q.Top? then succ else q.elem) && (q.Step? ==> q.elem != succ)
      requires node.parent == Above(p, null)
      requires p.Step? ==> p.elem in nodes && p.elem != succ && p.elem != r && p.elem != node &&
                           Mem()[p.elem].Child(p.side) == node && Mem()[p.elem].Child(p.side.Other()) != node
      modifies this`root, nodes`left, nodes`right, nodes`parent, nodes`color
      ensures Mem() == AttachMem(p, q, succ, r, node.color, old(Mem())) && node.color == old(node.color)
      ensures root == if p.Top? then succ else old(root)
    {
      if parent != succ {
        SetChild(succ, R, node.right);
        SetParent(node.right, succ);
      }
      Paint(succ, node.color);
      ReplaceNode(node, succ, node.parent, p);
    }

    /** A node with two children gives its place to its successor. */
    method SpliceSuccessorAt(node: Node, ghost p: Path<Node>, ghost l: Tree<Node>, ghost c: Color, ghost r: Tree<Node>)
      returns (child: Node?, parent: Node, color: Color, ghost q: Path<Node>, ghost s: Tree<Node>)
      requires At(p, Bin(l, node, c, r), root, Mem()) && l.Bin? && r.Bin?
      modifies this`root, nodes`left, nodes`right, nodes`parent, nodes`color
      ensures Plug(q, s) == r && AllLeft(q) && s.Bin? && s.left.Leaf?
      ensures child == RootOf(s.right) && color == s.color && parent == Above(q, s.elem)
      ensures At(p, Bin(l, s.elem, c, Plug(q, s.right)), root, Mem())
    {
      hide Rep, PathRep, Distinct, PathDistinct, Elems, PathElems, Focus, Plug, DetachMem, AttachMem;
      ghost var m0, r0 := Mem(), root;
      RepJoin(L, l, node, c, r, Above(p, null), m0);
      var succ;
      succ, q, s := Min(node.right, r, node);
      ghost var rest := s.right;
      assert s == Bin(Leaf, succ, s.color, rest);
      SuccOpenSets(p, l, node, c, q, succ, s.color, rest);
      SuccOpen(p, l, node, c, q, succ, s.color, rest, root, m0);
      SuccMembers(p, l, node, r, q, succ, rest);
      RepMember(l, node, m0); RepMember(r, node, m0); RepMember(rest, succ, m0);
      HoleReads(p, node, root, m0);
      InnerMember(q, succ, r.elem, node, m0);
      color := succ.color;
      child, parent := SuccDetachLinks(node, succ, q, l.elem);
      ghost var m1 := Mem();
      SuccDetach(p, l, node, r, q, succ, rest, root, m0, m1);
      HoleReads(p, node, root, m1);
      SuccAttachLinks(node, succ, parent, p, q, r.elem);
      SuccRight(p, l, node, c, r, q, succ, s, rest, m1);
      SuccAttach(p, l, node, Plug(q, rest), q, succ, c, r0, m1, Mem());
    }

    lemma NodeReads(p: Path<Node>, s: Tree<Node>)
      requires At(p, s, root, Mem()) && s.Bin?
      ensures s.elem in nodes && s.elem.parent == Above(p, null) && s.elem.color == s.color
      ensures s.elem.left == RootOf(s.left) && s.elem.right == RootOf(s.right)
    {}

    /** Forgetting the node that has been taken out. */
    ghost method Forget(node: Node, p: Path<Node>, t: Tree<Node>, before: seq<Node>)
      requires At(p, t, root, Mem()) && Distinct(shape) && InOrder(shape) == before && Elems(shape) == nodes
      requires InOrder(Plug(p, t)) == Without(before, node)
      modifies this`nodes
      ensures nodes == old(nodes) - {node} && Elems(Plug(p, t)) == nodes && At(p, t, root, Mem())
    {
      hide Rep, PathRep, Distinct, PathDistinct, Elems, PathElems, Plug, InOrder, Without;
      TreeWithout(shape, node, Plug(p, t));
      AtPlug(p, t, root, Mem());
      ghost var m := Mem();
      nodes := nodes - {node};
      RepRestrict(Plug(p, t), null, m, Mem());
      AtRoot(Plug(p, t), root, m);
      TopAt(Plug(p, t), root, Mem());
      AtPlug(p, t, root, Mem());
    }

    /** `ogs_rbtree_delete`. */
    method Delete(node: Node)
      requires Valid() && node in nodes
      modifies this, nodes`left, nodes`right, nodes`parent, nodes`color
      ensures Valid() && nodes == old(nodes) - {node}
      ensures InOrder(shape) == Without(old(InOrder(shape)), node)
    {
      hide Rep, PathRep, Distinct, PathDistinct, PathElems, Elems, Focus, Plug, InOrder, Without, RedBlack, At;
      ghost var before := shape;
      ghost var p, s := Locate(shape, node);
      AtPlug(p, s, root, Mem());
      AtDistinct(before, root, Mem());
      NodeReads(p, s);
      var child: Node?, parent: Node?, color: Color;
      ghost var path, t;
      if node.left == null {
        child, parent, color := node.right, node.parent, node.color;
        SpliceOut(p, s, s.right);
        SpliceOutOrder(p, s, s.right);
        path, t := p, s.right;
        SpliceNode(node, child, p, s, t);
      } else if node.right == null {
        child, parent, color := node.left, node.parent, node.color;
        SpliceOut(p, s, s.left);
        SpliceOutOrder(p, s, s.left);
        path, t := p, s.left;
        SpliceNode(node, child, p, s, t);
      } else {
        ghost var q, r;
        child, parent, color, q, r := SpliceSuccessorAt(node, p, s.left, s.color, s.right);
        SpliceSuccessor(p, s.left, node, s.color, q, r.elem, r.color, r.right);
        SpliceSuccessorOrder(p, s.left, node, s.color, q, r.elem, r.color, r.right);
        path, t := Compose(q, Step(R, r.elem, s.color, s.left, p)), r.right;
        ComposeAt(q, r.elem, s.color, s.left, p, t, root, Mem());
      }
      Forget(node, path, t, InOrder(before));
      if color == Black {
        DeleteColor(child, parent, path, t);
      } else {
        shape := Plug(path, t);
        AtPlug(path, t, root, Mem());
      }
    }

    // -------------------------------------------------------------- search and traversal

    /** `ogs_rbtree_link_node`: a new red leaf in an empty place. */
    method LinkNode(node: Node, parent: Node?, side: Side, ghost p: Path<Node>)
      requires At(p, Leaf, root, Mem()) && node !in nodes && node !in PathElems(p)
      requires parent == Above(p, null) && (p.Step? ==> side == p.side)
      modifies this`root, this`nodes, nodes`left, nodes`right, node`parent, node`left, node`right, node`color
      ensures At(p, Bin(Leaf, node, Red, Leaf), root, Mem()) && nodes == old(nodes) + {node}
    {
      hide Rep, PathRep, Distinct, PathDistinct, PathElems, Elems, Focus;
      ghost var m, r := Mem(), root;
      LinkReads(p, r, m);
      node.parent := parent;
      node.left, node.right := null, null;
      node.color := Red;
      nodes := nodes + {node};
      if parent == null {
        root := node;
      } else {
        SetChild(parent, side, node);
      }
      LinkRep(p, node, r, m, Mem());
    }

    /** `ogs_rbtree_first`. */
    method First() returns (node: Node?)
      requires Valid()
      ensures node == if InOrder(shape) == [] then null else InOrder(shape)[0]
    {
      if root == null {
        AtRoot(shape, root, Mem());
        return null;
      }
      AtRoot(shape, root, Mem());
      AtDistinct(shape, root, Mem());
      ghost var q, s;
      node, q, s := Min(root, shape, null);
      FirstOfPlug(q, s);
    }

    /** `ogs_rbtree_next`: the in-order successor, or null at the last node. */
    method Next(rbNode: Node, ghost k: nat) returns (next: Node?)
      requires Valid() && k < |InOrder(shape)| && InOrder(shape)[k] == rbNode
      ensures next == if k + 1 < |InOrder(shape)| then InOrder(shape)[k + 1] else null
    {
      hide Rep, PathRep, Distinct, PathDistinct, PathElems, Elems, Focus, Plug, RedBlack, Before, After, At;
      AtDistinct(shape, root, Mem());
      ghost var p, t := LocateIndex(shape, k);
      AtPlug(p, t, root, Mem());
      NodeReads(p, t);
      PlugInOrder(p, t);
      if rbNode.right != null {
        RepChild(p, t);
        ghost var q, s;
        next, q, s := Min(rbNode.right, t.right, rbNode);
        FirstOfPlug(q, s);
        assert InOrder(shape)[k + 1] == InOrder(t.right)[0];
        return;
      }
      assert |InOrder(t)| == |InOrder(t.left)| + 1;
      next := Climb(rbNode, k, p, t);
    }

    /** The upward loop of `ogs_rbtree_next`. */
    method Climb(rbNode: Node, ghost k: nat, ghost p0: Path<Node>, ghost t0: Tree<Node>) returns (next: Node?)
      requires At(p0, t0, root, Mem()) && Plug(p0, t0) == shape && t0.Bin? && t0.elem == rbNode
      requires |Before(p0)| + |InOrder(t0)| == k + 1
      ensures k < |InOrder(shape)| && next == if k + 1 < |InOrder(shape)| then InOrder(shape)[k + 1] else null
    {
      hide Rep, PathRep, Distinct, PathDistinct, PathElems, Elems, Focus, Plug, RedBlack, At;
      var node := rbNode;
      ghost var p, t := p0, t0;
      NodeReads(p, t);
      UpReads(p, t);
      while node.parent != null && node == node.parent.right
        invariant At(p, t, root, Mem()) && t.Bin? && t.elem == node && node in nodes && node.parent == Above(p, null)
        invariant p.Step? ==> p.elem in nodes && (p.side == R <==> p.elem.right == t.elem)
        invariant Plug(p, t) == shape && |Before(p)| + |InOrder(t)| == k + 1
        decreases Depth(p)
      {
        AtUp(p.side, p.elem, p.color, p.sib, p.up, t, root, Mem());
        PlugUp(p, t);
        assert |Before(p)| == |Before(p.up)| + |InOrder(p.sib)| + 1;
        node := node.parent;
        p, t := p.up, Join(p.side, t, p.elem, p.color, p.sib);
        NodeReads(p, t);
        UpReads(p, t);
      }
      PlugInOrder(p, t);
      next := node.parent;
    }

    lemma RepChild(p: Path<Node>, t: Tree<Node>)
      requires At(p, t, root, Mem()) && t.Bin?
      ensures Rep(t.right, t.elem, Mem())
    {}

    lemma UpReads(p: Path<Node>, t: Tree<Node>)
      requires At(p, t, root, Mem()) && t.Bin?
      ensures p.Step? ==> p.elem in nodes && (p.side == R <==> p.elem.right == t.elem)
    {
      if p.Step? { assert p.sib.Bin? ==> p.sib.elem in PathElems(p); }
    }
  }
}
