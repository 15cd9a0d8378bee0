/** Red-black trees as values: a tree, the path from a subtree up to the root, and the
    two laws of the colouring.  The imperative code in RbTree.dfy is proved against these
    values; every recolouring case is one lemma about the path and the subtree below it. */
module RbShape {
  import opened Sequences

  datatype Color = Red | Black

  datatype Side = L | R {
    function Other(): Side { if this == L then R else L }
  }

  datatype Tree<T> = Leaf | Bin(left: Tree<T>, elem: T, color: Color, right: Tree<T>)

  /** The context of a subtree.  `Step(side, x, c, sib, up)` says: the subtree is the
      `side` child of `x`, whose other child is `sib` and which itself sits in `up`. */
  datatype Path<T> = Top | Step(side: Side, elem: T, color: Color, sib: Tree<T>, up: Path<T>)

  /** The tree with root `x` that has `t` on `side` and `sib` on the other side. */
  function Join<T>(side: Side, t: Tree<T>, x: T, c: Color, sib: Tree<T>): Tree<T> {
    if side == L then Bin(t, x, c, sib) else Bin(sib, x, c, t)
  }

  function Plug<T>(p: Path<T>, t: Tree<T>): Tree<T>
    decreases p
  {
    match p
    case Top => t
    case Step(side, x, c, sib, up) => Plug(up, Join(side, t, x, c, sib))
  }

  /** The path of a subtree of a subtree: `q` leads to the inner root, `outer` on from there. */
  function Compose<T>(q: Path<T>, outer: Path<T>): Path<T> {
    match q
    case Top => outer
    case Step(side, x, c, sib, up) => Step(side, x, c, sib, Compose(up, outer))
  }

  function Depth<T>(p: Path<T>): nat {
    if p.Top? then 0 else 1 + Depth(p.up)
  }

  function InOrder<T>(t: Tree<T>): seq<T> {
    match t
    case Leaf => []
    case Bin(l, x, _, r) => InOrder(l) + [x] + InOrder(r)
  }

  /** The elements before and after the hole of a path. */
  function Before<T>(p: Path<T>): seq<T> {
    match p
    case Top => []
    case Step(L, _, _, _, up) => Before(up)
    case Step(R, x, _, sib, up) => Before(up) + InOrder(sib) + [x]
  }

  function After<T>(p: Path<T>): seq<T> {
    match p
    case Top => []
    case Step(L, x, _, sib, up) => [x] + InOrder(sib) + After(up)
    case Step(R, _, _, _, up) => After(up)
  }

  // ---------------------------------------------------------------- no element twice

  ghost function Elems<T>(t: Tree<T>): set<T> {
    match t
    case Leaf => {}
    case Bin(l, x, _, r) => Elems(l) + {x} + Elems(r)
  }

  ghost function PathElems<T>(p: Path<T>): set<T> {
    match p
    case Top => {}
    case Step(_, x, _, sib, up) => PathElems(up) + {x} + Elems(sib)
  }

  ghost predicate Distinct<T>(t: Tree<T>) {
    match t
    case Leaf => true
    case Bin(l, x, _, r) =>
      Distinct(l) && Distinct(r) && x !in Elems(l) && x !in Elems(r) && Elems(l) !! Elems(r)
  }

  ghost predicate PathDistinct<T>(p: Path<T>) {
    match p
    case Top => true
    case Step(_, x, _, sib, up) =>
      PathDistinct(up) && Distinct(sib) && x !in Elems(sib) && x !in PathElems(up) && Elems(sib) !! PathElems(up)
  }

  ghost predicate Focus<T>(p: Path<T>, t: Tree<T>) {
    PathDistinct(p) && Distinct(t) && Elems(t) !! PathElems(p)
  }

  // ---------------------------------------------------------------- the colouring laws

  predicate IsRed<T>(t: Tree<T>) { t.Bin? && t.color == Red }

  function Weight(c: Color): nat { if c == Black then 1 else 0 }

  function BlackHeight<T>(t: Tree<T>): nat {
    match t
    case Leaf => 0
    case Bin(l, _, c, _) => BlackHeight(l) + Weight(c)
  }

  ghost predicate Balanced<T>(t: Tree<T>) {
    match t
    case Leaf => true
    case Bin(l, _, _, r) => Balanced(l) && Balanced(r) && BlackHeight(l) == BlackHeight(r)
  }

  ghost predicate NoRedRed<T>(t: Tree<T>) {
    match t
    case Leaf => true
    case Bin(l, _, c, r) => NoRedRed(l) && NoRedRed(r) && (c == Red ==> !IsRed(l) && !IsRed(r))
  }

  ghost predicate RedBlack<T>(t: Tree<T>) { Balanced(t) && NoRedRed(t) && !IsRed(t) }

  /** A hole that a subtree of black height `h` fills to a balanced tree. */
  ghost predicate PathBalanced<T>(p: Path<T>, h: nat) {
    match p
    case Top => true
    case Step(_, _, c, sib, up) => Balanced(sib) && BlackHeight(sib) == h && PathBalanced(up, h + Weight(c))
  }

  /** No red node above the hole has a red child, where `red` is the colour of the hole's root. */
  ghost predicate PathNoRedRed<T>(p: Path<T>, red: bool) {
    match p
    case Top => true
    case Step(_, _, c, sib, up) =>
      NoRedRed(sib) && (c == Red ==> !red && !IsRed(sib)) && PathNoRedRed(up, c == Red)
  }

  ghost predicate PathRootBlack<T>(p: Path<T>) {
    match p
    case Top => true
    case Step(_, _, c, _, up) => (up.Top? ==> c == Black) && PathRootBlack(up)
  }

  function Blacken<T>(t: Tree<T>): Tree<T> { if t.Bin? then t.(color := Black) else t }

  // ---------------------------------------------------------------- plugging

  lemma Regroup<T>(b: seq<T>, l: seq<T>, x: T, r: seq<T>, a: seq<T>)
    ensures b + (l + [x] + r) + a == (b + l + [x]) + r + a
    ensures b + (l + [x] + r) + a == b + l + ([x] + r + a)
    ensures b + (l + [x] + r) + a == (b + l) + [x] + (r + a)
  {}

  lemma {:induction false} PlugInOrder<T>(p: Path<T>, t: Tree<T>)
    ensures InOrder(Plug(p, t)) == Before(p) + InOrder(t) + After(p)
    decreases p
  {
    match p
    case Top =>
    case Step(side, x, c, sib, up) =>
      PlugInOrder(up, Join(side, t, x, c, sib));
      if side == L {
        Regroup(Before(up), InOrder(t), x, InOrder(sib), After(up));
      } else {
        Regroup(Before(up), InOrder(sib), x, InOrder(t), After(up));
      }
  }

  lemma PlugTop<T>(t: Tree<T>)
    ensures Plug(Top, t) == t
  {}

  lemma PlugSameOrder<T>(p: Path<T>, t: Tree<T>, t': Tree<T>)
    requires InOrder(t) == InOrder(t')
    ensures InOrder(Plug(p, t)) == InOrder(Plug(p, t'))
  {
    PlugInOrder(p, t); PlugInOrder(p, t');
  }

  lemma PaintOrder<T>(t: Tree<T>, c: Color)
    requires t.Bin?
    ensures InOrder(t.(color := c)) == InOrder(t)
  {}

  lemma JoinSameOrder<T>(side: Side, t: Tree<T>, t': Tree<T>, x: T, c: Color, c': Color, sib: Tree<T>, sib': Tree<T>)
    requires InOrder(t) == InOrder(t') && InOrder(sib) == InOrder(sib')
    ensures InOrder(Join(side, t, x, c, sib)) == InOrder(Join(side, t', x, c', sib'))
  {}

  /** A rotation towards `side` keeps the in-order sequence, whatever the colours. */
  lemma RotateSameOrder<T>(side: Side, near: Tree<T>, x: T, c: Color, c': Color, mid: Tree<T>, y: T, d: Color,
                           d': Color, far: Tree<T>)
    ensures InOrder(Join(side, near, x, c, Join(side, mid, y, d, far))) ==
            InOrder(Join(side, Join(side, near, x, c', mid), y, d', far))
  {
    var a, b, e := InOrder(near), InOrder(mid), InOrder(far);
    if side == L {
      assert a + [x] + (b + [y] + e) == (a + [x] + b) + [y] + e;
    } else {
      assert (e + [y] + b) + [x] + a == e + [y] + (b + [x] + a);
    }
  }

  lemma {:induction false} PlugElems<T>(p: Path<T>, t: Tree<T>)
    ensures Elems(Plug(p, t)) == PathElems(p) + Elems(t)
    decreases p
  {
    match p
    case Top =>
    case Step(side, x, c, sib, up) => PlugElems(up, Join(side, t, x, c, sib));
  }

  lemma {:induction false} PlugDistinct<T>(p: Path<T>, t: Tree<T>)
    ensures Distinct(Plug(p, t)) <==> Focus(p, t)
    decreases p
  {
    match p
    case Top =>
    case Step(side, x, c, sib, up) => PlugDistinct(up, Join(side, t, x, c, sib));
  }

  lemma {:induction false} PlugCompose<T>(q: Path<T>, outer: Path<T>, t: Tree<T>)
    ensures Plug(Compose(q, outer), t) == Plug(outer, Plug(q, t))
    decreases q
  {
    match q
    case Top =>
    case Step(side, x, c, sib, up) => PlugCompose(up, outer, Join(side, t, x, c, sib));
  }

  lemma {:induction false} ElemsOfInOrder<T>(t: Tree<T>)
    ensures Elems(t) == Members(InOrder(t))
  {
    match t
    case Leaf =>
    case Bin(l, x, _, r) => ElemsOfInOrder(l); ElemsOfInOrder(r);
  }

  /** A tree without repeated elements lists every element once. */
  lemma {:induction false} InOrderNoDuplicates<T>(t: Tree<T>)
    requires Distinct(t)
    ensures NoDup(InOrder(t))
  {
    match t
    case Leaf =>
    case Bin(l, x, _, r) =>
      InOrderNoDuplicates(l); InOrderNoDuplicates(r);
      ElemsOfInOrder(l); ElemsOfInOrder(r);
      var s, a, b := InOrder(t), InOrder(l), InOrder(r);
      forall i, j | 0 <= i < j < |s| ensures s[i] != s[j] {
        if j < |a| {
          assert s[i] == a[i] && s[j] == a[j];
        } else if i > |a| {
          assert s[i] == b[i - |a| - 1] && s[j] == b[j - |a| - 1];
        } else {
          assert i < |a| ==> s[i] == a[i] && a[i] in Elems(l);
          assert j > |a| ==> s[j] == b[j - |a| - 1] && b[j - |a| - 1] in Elems(r);
          assert s[|a|] == x;
        }
      }
  }

  /** Each law holds of the plugged tree exactly when it holds of the subtree and of the path. */
  lemma {:induction false} PlugBalanced<T>(p: Path<T>, t: Tree<T>)
    ensures Balanced(Plug(p, t)) <==> Balanced(t) && PathBalanced(p, BlackHeight(t))
    decreases p
  {
    match p
    case Top =>
    case Step(side, x, c, sib, up) => PlugBalanced(up, Join(side, t, x, c, sib));
  }

  lemma {:induction false} PlugNoRedRed<T>(p: Path<T>, t: Tree<T>)
    ensures NoRedRed(Plug(p, t)) <==> NoRedRed(t) && PathNoRedRed(p, IsRed(t))
    decreases p
  {
    match p
    case Top =>
    case Step(side, x, c, sib, up) => PlugNoRedRed(up, Join(side, t, x, c, sib));
  }

  lemma {:induction false} PlugRootBlack<T>(p: Path<T>, t: Tree<T>)
    ensures !IsRed(Plug(p, t)) <==> (if p.Top? then !IsRed(t) else PathRootBlack(p))
    decreases p
  {
    match p
    case Top =>
    case Step(side, x, c, sib, up) => PlugRootBlack(up, Join(side, t, x, c, sib));
  }

  lemma {:induction false} PlugNonempty<T>(p: Path<T>, t: Tree<T>)
    ensures Plug(p, t).Leaf? <==> p.Top? && t.Leaf?
    decreases p
  {
    match p
    case Top =>
    case Step(side, x, c, sib, up) => PlugNonempty(up, Join(side, t, x, c, sib));
  }

  lemma PlugRedBlack<T>(p: Path<T>, t: Tree<T>)
    ensures RedBlack(Plug(p, t)) <==>
            Balanced(t) && PathBalanced(p, BlackHeight(t)) && NoRedRed(t) && PathNoRedRed(p, IsRed(t)) &&
            (if p.Top? then !IsRed(t) else PathRootBlack(p))
  {
    PlugBalanced(p, t); PlugNoRedRed(p, t); PlugRootBlack(p, t);
  }

  /** Every element of a tree is the root of some subtree. */
  lemma {:induction false} Locate<T>(t: Tree<T>, x: T) returns (p: Path<T>, s: Tree<T>)
    requires x in Elems(t)
    ensures Plug(p, s) == t && s.Bin? && s.elem == x
  {
    match t
    case Bin(l, y, c, r) =>
      if x == y {
        p, s := Top, t;
      } else if x in Elems(l) {
        p, s := Locate(l, x);
        PlugCompose(p, Step(L, y, c, r, Top), s);
        p := Compose(p, Step(L, y, c, r, Top));
      } else {
        p, s := Locate(r, x);
        PlugCompose(p, Step(R, y, c, l, Top), s);
        p := Compose(p, Step(R, y, c, l, Top));
      }
  }

  // ---------------------------------------------------------------- insertion

  /** What every iteration of the insertion loop keeps: the subtree has a red root and obeys
      both laws, and so does the path; the only red-red edge there can be is the one between
      the subtree and its parent. */
  ghost predicate Inserting<T>(p: Path<T>, t: Tree<T>) {
    IsRed(t) && Balanced(t) && NoRedRed(t) &&
    PathBalanced(p, BlackHeight(t)) && PathNoRedRed(p, false) && PathRootBlack(p)
  }

  predicate ParentRed<T>(p: Path<T>) { p.Step? && p.color == Red }

  lemma GrandparentExists<T>(p: Path<T>, t: Tree<T>)
    requires Inserting(p, t) && ParentRed(p)
    ensures p.up.Step? && p.up.color == Black && !IsRed(p.sib)
  {
    assert PathNoRedRed(p.up, true);
  }

  /** Red uncle: two recolourings move the red-red edge two levels up. */
  lemma InsertFlip<T>(p: Path<T>, t: Tree<T>)
    requires Inserting(p, t) && ParentRed(p) && p.up.Step? && IsRed(p.up.sib)
    ensures var g := p.up;
            Inserting(g.up, Join(g.side, Join(p.side, t, p.elem, Black, p.sib), g.elem, Red, Blacken(g.sib)))
  {
    var g := p.up;
    assert PathNoRedRed(g, true) && PathBalanced(g, BlackHeight(t)) && PathRootBlack(g);
    assert Balanced(g.sib) && NoRedRed(g.sib);
    var parent, uncle := Join(p.side, t, p.elem, Black, p.sib), Blacken(g.sib);
    assert Balanced(parent) && NoRedRed(parent) && BlackHeight(parent) == BlackHeight(t) + 1;
    assert Balanced(uncle) && NoRedRed(uncle) && BlackHeight(uncle) == BlackHeight(t) + 1;
  }

  /** Inner child: a rotation at the parent makes it the parent, and the old parent the
      outer child, without touching any other edge. */
  lemma InsertTurn<T>(p: Path<T>, t: Tree<T>, near: Tree<T>, far: Tree<T>)
    requires Inserting(p, t) && ParentRed(p) && t == Join(p.side, far, t.elem, Red, near)
    ensures Inserting(Step(p.side.Other(), t.elem, Red, far, p.up), Join(p.side, near, p.elem, Red, p.sib))
  {
  }

  /** Outer child and black uncle: the rotation at the grandparent removes the red-red edge. */
  lemma InsertFinish<T>(p: Path<T>, t: Tree<T>)
    requires Inserting(p, t) && ParentRed(p) && p.up.Step? && !IsRed(p.up.sib)
    ensures var g := p.up;
            Inserting(Step(p.side, p.elem, Black, Join(p.side, p.sib, g.elem, Red, g.sib), g.up), t)
  {
    var g := p.up;
    assert PathNoRedRed(g, true) && PathBalanced(g, BlackHeight(t)) && PathRootBlack(g);
    var turned := Join(p.side, p.sib, g.elem, Red, g.sib);
    assert Balanced(turned) && NoRedRed(turned) && BlackHeight(turned) == BlackHeight(t);
  }

  lemma FlipOrder<T>(p: Path<T>, t: Tree<T>, t': Tree<T>)
    requires p.Step? && p.up.Step?
    requires t' == Join(p.up.side, Join(p.side, t, p.elem, Black, p.sib), p.up.elem, Red, Blacken(p.up.sib))
    ensures InOrder(Plug(p.up.up, t')) == InOrder(Plug(p, t))
  {
    var pt := Join(p.side, t, p.elem, p.color, p.sib);
    JoinSameOrder(p.side, t, t, p.elem, p.color, Black, p.sib, p.sib);
    assert InOrder(Blacken(p.up.sib)) == InOrder(p.up.sib);
    JoinSameOrder(p.up.side, pt, Join(p.side, t, p.elem, Black, p.sib), p.up.elem, p.up.color, Red, p.up.sib,
                  Blacken(p.up.sib));
    PlugSameOrder(p.up.up, Join(p.up.side, pt, p.up.elem, p.up.color, p.up.sib), t');
    assert Plug(p, t) == Plug(p.up, pt);
  }

  lemma TurnOrder<T>(p: Path<T>, t: Tree<T>, near: Tree<T>, far: Tree<T>)
    requires p.Step? && t.Bin? && t == Join(p.side, far, t.elem, t.color, near)
    ensures InOrder(Plug(Step(p.side.Other(), t.elem, t.color, far, p.up), Join(p.side, near, p.elem, p.color, p.sib)))
            == InOrder(Plug(p, t))
  {
    var side := p.side.Other();
    RotateSameOrder(side, p.sib, p.elem, p.color, p.color, near, t.elem, t.color, t.color, far);
    PlugSameOrder(p.up, Join(p.side, t, p.elem, p.color, p.sib),
                  Join(side, Join(p.side, near, p.elem, p.color, p.sib), t.elem, t.color, far));
  }

  lemma FinishOrder<T>(p: Path<T>, t: Tree<T>)
    requires p.Step? && p.up.Step? && p.side == p.up.side
    ensures InOrder(Plug(Step(p.side, p.elem, Black, Join(p.side, p.sib, p.up.elem, Red, p.up.sib), p.up.up), t))
            == InOrder(Plug(p, t))
  {
    var g, side := p.up, p.side.Other();
    RotateSameOrder(side, g.sib, g.elem, g.color, Red, p.sib, p.elem, p.color, Black, t);
    var pt := Join(p.side, t, p.elem, p.color, p.sib);
    PlugSameOrder(g.up, Join(g.side, pt, g.elem, g.color, g.sib),
                  Join(p.side, t, p.elem, Black, Join(p.side, p.sib, g.elem, Red, g.sib)));
    assert Plug(p, t) == Plug(g, pt);
  }

  /** When the parent is black, or there is none, blackening the root ends the insertion. */
  lemma InsertDone<T>(p: Path<T>, t: Tree<T>)
    requires Inserting(p, t) && !ParentRed(p)
    ensures RedBlack(Blacken(Plug(p, t)))
    ensures InOrder(Blacken(Plug(p, t))) == InOrder(Plug(p, t))
  {
    if p.Step? { PlugRedBlack(p, t); }
  }

  // ---------------------------------------------------------------- deletion

  /** What every iteration of the deletion loop keeps: the subtree is one black short of what
      its path asks for, and there is no red-red edge except possibly at the subtree's root. */
  ghost predicate Deleting<T>(p: Path<T>, t: Tree<T>) {
    Balanced(t) && NoRedRed(Blacken(t)) &&
    PathBalanced(p, BlackHeight(t) + 1) && PathNoRedRed(p, false) && PathRootBlack(p)
  }

  lemma DeletingWhole<T>(t: Tree<T>)
    requires RedBlack(t)
    ensures Deleting(Top, t)
  {}

  lemma SiblingExists<T>(p: Path<T>, t: Tree<T>)
    requires Deleting(p, t) && p.Step?
    ensures p.sib.Bin?
    ensures IsRed(p.sib) ==> p.color == Black && p.sib.left.Bin? && p.sib.right.Bin?
                             && !IsRed(p.sib.left) && !IsRed(p.sib.right)
  {
    assert Balanced(p.sib) && NoRedRed(p.sib);
    if IsRed(p.sib) { assert Balanced(p.sib.left) && Balanced(p.sib.right); }
  }

  /** Case 1: the rotation at the parent gives the subtree a black sibling. */
  lemma DeleteRedSibling<T>(p: Path<T>, t: Tree<T>, near: Tree<T>, far: Tree<T>)
    requires Deleting(p, t) && p.Step? && p.sib == Join(p.side, near, p.sib.elem, Red, far)
    ensures Deleting(Step(p.side, p.elem, Red, near, Step(p.side, p.sib.elem, Black, far, p.up)), t)
    ensures near.Bin? && near.color == Black
  {
    SiblingExists(p, t);
    var s := Step(p.side, p.sib.elem, Black, far, p.up);
    assert PathBalanced(s, BlackHeight(t) + 1) && PathNoRedRed(s, true) && PathRootBlack(s);
  }

  /** Case 2: a black sibling with black children turns red and the shortage moves up. */
  lemma DeleteFlip<T>(p: Path<T>, t: Tree<T>)
    requires Deleting(p, t) && p.Step? && p.sib.Bin? && p.sib.color == Black && !IsRed(t)
    requires !IsRed(p.sib.left) && !IsRed(p.sib.right)
    ensures Deleting(p.up, Join(p.side, t, p.elem, p.color, p.sib.(color := Red)))
  {
    var s := p.sib.(color := Red);
    assert Balanced(s) && NoRedRed(s) && BlackHeight(s) == BlackHeight(t);
    assert NoRedRed(Join(p.side, t, p.elem, Black, s));
    assert PathNoRedRed(p.up, p.color == Red) && PathBalanced(p.up, BlackHeight(t) + 1 + Weight(p.color));
    PathNoRedRedFalse(p.up, p.color == Red);
  }

  lemma PathNoRedRedFalse<T>(p: Path<T>, red: bool)
    requires PathNoRedRed(p, red)
    ensures PathNoRedRed(p, false)
  {}

  lemma PathLaws<T>(p: Path<T>, h: nat, red: bool)
    requires p.Step?
    ensures PathBalanced(p, h) <==> Balanced(p.sib) && BlackHeight(p.sib) == h && PathBalanced(p.up, h + Weight(p.color))
    ensures PathNoRedRed(p, red) <==>
            NoRedRed(p.sib) && (p.color == Red ==> !red && !IsRed(p.sib)) && PathNoRedRed(p.up, p.color == Red)
    ensures PathRootBlack(p) <==> (p.up.Top? ==> p.color == Black) && PathRootBlack(p.up)
  {}

  /** Case 3: the near nephew is red, the far one black: a rotation at the sibling swaps them. */
  lemma DeleteTurn<T>(p: Path<T>, t: Tree<T>, a: Tree<T>, x: T, b: Tree<T>, far: Tree<T>)
    requires Deleting(p, t) && p.Step? && !IsRed(far)
    requires p.sib == Join(p.side, Join(p.side, a, x, Red, b), p.sib.elem, Black, far)
    ensures Deleting(p.(sib := Join(p.side, a, x, Black, Join(p.side, b, p.sib.elem, Red, far))), t)
  {
    hide PathBalanced, PathNoRedRed, PathRootBlack;
    var near := Join(p.side, a, x, Red, b);
    PathLaws(p, BlackHeight(t) + 1, false);
    assert Balanced(near) && NoRedRed(near);
    var turned := Join(p.side, b, p.sib.elem, Red, far);
    assert Balanced(turned) && NoRedRed(turned) && BlackHeight(turned) == BlackHeight(b);
    var sib := Join(p.side, a, x, Black, turned);
    assert Balanced(sib) && NoRedRed(sib) && BlackHeight(sib) == BlackHeight(p.sib) && !IsRed(sib);
    PathLaws(p.(sib := sib), BlackHeight(t) + 1, false);
  }

  /** Case 4: the far nephew is red: a rotation at the parent pays the missing black. */
  lemma DeleteFinish<T>(p: Path<T>, t: Tree<T>, near: Tree<T>, far: Tree<T>)
    requires Deleting(p, t) && p.Step? && IsRed(far) && !IsRed(t)
    requires p.sib == Join(p.side, near, p.sib.elem, Black, far)
    ensures RedBlack(Plug(p.up,
              Join(p.side, Join(p.side, t, p.elem, Black, near), p.sib.elem, p.color, Blacken(far))))
  {
    assert Balanced(p.sib) && NoRedRed(p.sib) && Balanced(far) && NoRedRed(far);
    var lower := Join(p.side, t, p.elem, Black, near);
    assert Balanced(lower) && NoRedRed(lower) && BlackHeight(lower) == BlackHeight(t) + 1;
    var outer := Blacken(far);
    assert Balanced(outer) && NoRedRed(outer) && BlackHeight(outer) == BlackHeight(t) + 1;
    var s := Join(p.side, lower, p.sib.elem, p.color, outer);
    assert Balanced(s) && NoRedRed(s) && BlackHeight(s) == BlackHeight(t) + 1 + Weight(p.color);
    PlugRedBlack(p.up, s);
  }

  lemma RedSiblingOrder<T>(p: Path<T>, t: Tree<T>, near: Tree<T>, far: Tree<T>)
    requires p.Step? && p.sib.Bin? && p.sib == Join(p.side, near, p.sib.elem, p.sib.color, far)
    ensures InOrder(Plug(Step(p.side, p.elem, Red, near, Step(p.side, p.sib.elem, Black, far, p.up)), t))
            == InOrder(Plug(p, t))
  {
    RotateSameOrder(p.side, t, p.elem, p.color, Red, near, p.sib.elem, p.sib.color, Black, far);
    PlugSameOrder(p.up, Join(p.side, t, p.elem, p.color, p.sib),
                  Join(p.side, Join(p.side, t, p.elem, Red, near), p.sib.elem, Black, far));
    var q := Step(p.side, p.sib.elem, Black, far, p.up);
    assert Plug(Step(p.side, p.elem, Red, near, q), t) == Plug(q, Join(p.side, t, p.elem, Red, near));
  }

  lemma SiblingOrder<T>(p: Path<T>, t: Tree<T>, sib: Tree<T>)
    requires p.Step? && InOrder(sib) == InOrder(p.sib)
    ensures InOrder(Plug(p.(sib := sib), t)) == InOrder(Plug(p, t))
    ensures InOrder(Plug(p.up, Join(p.side, t, p.elem, p.color, sib))) == InOrder(Plug(p, t))
  {
    JoinSameOrder(p.side, t, t, p.elem, p.color, p.color, sib, p.sib);
    PlugSameOrder(p.up, Join(p.side, t, p.elem, p.color, p.sib), Join(p.side, t, p.elem, p.color, sib));
  }

  lemma FarNephewOrder<T>(p: Path<T>, t: Tree<T>, near: Tree<T>, far: Tree<T>)
    requires p.Step? && p.sib.Bin? && p.sib == Join(p.side, near, p.sib.elem, p.sib.color, far)
    ensures InOrder(Plug(p.up, Join(p.side, Join(p.side, t, p.elem, Black, near), p.sib.elem, p.color, Blacken(far))))
            == InOrder(Plug(p, t))
  {
    assert InOrder(Blacken(far)) == InOrder(far);
    var inner, inner' := Join(p.side, near, p.sib.elem, p.sib.color, far), Join(p.side, near, p.sib.elem, p.color,
                              Blacken(far));
    JoinSameOrder(p.side, near, near, p.sib.elem, p.sib.color, p.color, far, Blacken(far));
    JoinSameOrder(p.side, t, t, p.elem, p.color, Black, inner, inner');
    RotateSameOrder(p.side, t, p.elem, Black, Black, near, p.sib.elem, p.color, p.color, Blacken(far));
    PlugSameOrder(p.up, Join(p.side, t, p.elem, p.color, p.sib),
                  Join(p.side, Join(p.side, t, p.elem, Black, near), p.sib.elem, p.color, Blacken(far)));
  }

  /** The loop ends at the root or at a red node; blackening that node restores both laws. */
  lemma DeleteDone<T>(p: Path<T>, t: Tree<T>)
    requires Deleting(p, t) && (p.Top? || IsRed(t))
    ensures RedBlack(Plug(p, Blacken(t)))
  {
    var b := Blacken(t);
    assert Balanced(b) && NoRedRed(b);
    PlugRedBlack(p, b);
  }

  /** Every step of the path goes down to the left: the hole comes first in the order. */
  predicate AllLeft<T>(q: Path<T>) {
    q.Step? ==> q.side == L && AllLeft(q.up)
  }

  lemma {:induction false} AllLeftBefore<T>(q: Path<T>)
    requires AllLeft(q)
    ensures Before(q) == []
  {
    if q.Step? { AllLeftBefore(q.up); }
  }

  /** Taking out a node that has a missing child: a red one leaves the tree in order, a black
      one leaves a subtree that is one black short. */
  lemma SpliceOut<T>(p: Path<T>, s: Tree<T>, t: Tree<T>)
    requires RedBlack(Plug(p, s)) && s.Bin?
    requires (s.left.Leaf? && t == s.right) || (s.right.Leaf? && t == s.left)
    ensures s.color == Black ==> Deleting(p, t)
    ensures s.color == Red ==>
              Balanced(t) && PathBalanced(p, BlackHeight(t)) && NoRedRed(t) && PathNoRedRed(p, IsRed(t))
                               && p.Step? && PathRootBlack(p)
    ensures s.color == Red ==> RedBlack(Plug(p, t))
  {
    hide Plug, RedBlack;
    PlugRedBlack(p, s);
    PlugRedBlack(p, t);
    PathNoRedRedFalse(p, IsRed(s));
  }

  /** The laws do not depend on which element sits at an inner node. */
  lemma {:induction false} RenameLaws<T>(q: Path<T>, side: Side, x: T, y: T, c: Color, sib: Tree<T>, up: Path<T>,
                                         h: nat, red: bool)
    ensures var a, b := Compose(q, Step(side, x, c, sib, up)), Compose(q, Step(side, y, c, sib, up));
            (PathBalanced(a, h) <==> PathBalanced(b, h)) &&
            (PathNoRedRed(a, red) <==> PathNoRedRed(b, red)) &&
            (PathRootBlack(a) <==> PathRootBlack(b)) && a.Step? && b.Step? && (a.up.Top? <==> b.up.Top?)
    decreases q
  {
    if q.Step? {
      RenameLaws(q.up, side, x, y, c, sib, up, h + Weight(q.color), q.color == Red);
    }
  }

  /** Taking out a node with two children: its successor, the first node of the right
      subtree, takes its place and colour, and is itself spliced out below. */
  lemma SpliceSuccessor<T>(p: Path<T>, l: Tree<T>, x: T, c: Color, q: Path<T>, y: T, d: Color, rest: Tree<T>)
    requires RedBlack(Plug(p, Bin(l, x, c, Plug(q, Bin(Leaf, y, d, rest)))))
    ensures var path := Compose(q, Step(R, y, c, l, p));
            (d == Black ==> Deleting(path, rest)) && (d == Red ==> RedBlack(Plug(path, rest)))
  {
    var old_, new_ := Compose(q, Step(R, x, c, l, p)), Compose(q, Step(R, y, c, l, p));
    var s := Bin(Leaf, y, d, rest);
    PlugCompose(q, Step(R, x, c, l, p), s);
    assert Plug(Step(R, x, c, l, p), Plug(q, s)) == Plug(p, Bin(l, x, c, Plug(q, s)));
    SpliceOut(old_, s, rest);
    RenameLaws(q, R, x, y, c, l, p, BlackHeight(rest) + 1, false);
    RenameLaws(q, R, x, y, c, l, p, BlackHeight(rest), IsRed(rest));
    PlugRedBlack(new_, rest);
  }

  /** The sequence without the element `x`. */
  function Without<T(==)>(s: seq<T>, x: T): seq<T> {
    if s == [] then [] else if s[0] == x then s[1..] else [s[0]] + Without(s[1..], x)
  }

  lemma {:induction false} WithoutMiddle<T>(a: seq<T>, x: T, b: seq<T>)
    requires NoDup(a + [x] + b)
    ensures Without(a + [x] + b, x) == a + b
  {
    var s := a + [x] + b;
    if a == [] {
      assert s[1..] == b && a + b == b;
    } else {
      assert s[0] == a[0] && s[|a|] == x;
      assert s[1..] == a[1..] + [x] + b;
      WithoutMiddle(a[1..], x, b);
      assert [a[0]] + (a[1..] + b) == a + b;
    }
  }

  lemma SpliceOutOrder<T>(p: Path<T>, s: Tree<T>, t: Tree<T>)
    requires s.Bin? && Distinct(Plug(p, s))
    requires (s.left.Leaf? && t == s.right) || (s.right.Leaf? && t == s.left)
    ensures InOrder(Plug(p, t)) == Without(InOrder(Plug(p, s)), s.elem)
  {
    hide Plug, Distinct, Without, Before, After;
    PlugInOrder(p, s); PlugInOrder(p, t);
    InOrderNoDuplicates(Plug(p, s));
    var l, r := InOrder(s.left), InOrder(s.right);
    Regroup(Before(p), l, s.elem, r, After(p));
    WithoutMiddle(Before(p) + l, s.elem, r + After(p));
    DropEmpty(Before(p), l, r, After(p));
  }

  lemma DropEmpty<T>(b: seq<T>, l: seq<T>, r: seq<T>, a: seq<T>)
    ensures l == [] ==> (b + l) + (r + a) == b + r + a
    ensures r == [] ==> (b + l) + (r + a) == b + l + a
  {}

  lemma SpliceSuccessorOrder<T>(p: Path<T>, l: Tree<T>, x: T, c: Color, q: Path<T>, y: T, d: Color, rest: Tree<T>)
    requires AllLeft(q) && Distinct(Plug(p, Bin(l, x, c, Plug(q, Bin(Leaf, y, d, rest)))))
    ensures InOrder(Plug(p, Bin(l, y, c, Plug(q, rest)))) ==
            Without(InOrder(Plug(p, Bin(l, x, c, Plug(q, Bin(Leaf, y, d, rest))))), x)
  {
    hide Plug, Distinct, Without, Before, After;
    var s := Bin(Leaf, y, d, rest);
    var r, r' := Plug(q, s), Plug(q, rest);
    AllLeftBefore(q);
    PlugInOrder(q, s); PlugInOrder(q, rest);
    var i, l', b, a := InOrder(rest), InOrder(l), Before(p), After(p);
    assert InOrder(s) == [] + [y] + i;
    assert InOrder(r') == i + After(q);
    Regroup([], [], y, i, After(q));
    assert InOrder(r) == [y] + InOrder(r');
    PlugInOrder(p, Bin(l, x, c, r)); PlugInOrder(p, Bin(l, y, c, r'));
    InOrderNoDuplicates(Plug(p, Bin(l, x, c, r)));
    Regroup(b, l', x, InOrder(r), a);
    WithoutMiddle(b + l', x, InOrder(r) + a);
    Regroup(b, l', y, InOrder(r'), a);
    Middle(b + l', y, InOrder(r'), a);
  }

  lemma Middle<T>(b: seq<T>, y: T, r: seq<T>, a: seq<T>)
    ensures b + (([y] + r) + a) == b + [y] + (r + a)
  {}

  ghost function Members<T>(s: seq<T>): set<T> { set y | y in s }

  lemma MembersCons<T>(x: T, s: seq<T>)
    ensures Members([x] + s) == {x} + Members(s)
  {}

  lemma {:induction false} WithoutElems<T>(s: seq<T>, x: T)
    requires NoDup(s)
    ensures Members(Without(s, x)) == Members(s) - {x}
    ensures NoDup(Without(s, x))
  {
    if s != [] {
      var rest := s[1..];
      assert s == [s[0]] + rest;
      assert s[0] !in Members(rest);
      MembersCons(s[0], rest);
      WithoutElems(rest, x);
      if s[0] != x {
        var w := Without(rest, x);
        MembersCons(s[0], w);
        assert forall i :: 0 <= i < |w| ==> w[i] in Members(w);
      }
    }
  }

  lemma TreeWithout<T>(t: Tree<T>, x: T, t': Tree<T>)
    requires Distinct(t) && InOrder(t') == Without(InOrder(t), x)
    ensures Elems(t') == Elems(t) - {x}
  {
    InOrderNoDuplicates(t);
    WithoutElems(InOrder(t), x);
    ElemsOfInOrder(t); ElemsOfInOrder(t');
  }

  lemma FirstOfPlug<T>(q: Path<T>, s: Tree<T>)
    requires AllLeft(q) && s.Bin? && s.left.Leaf?
    ensures |InOrder(Plug(q, s))| > 0 && InOrder(Plug(q, s))[0] == s.elem
  {
    PlugInOrder(q, s);
    AllLeftBefore(q);
  }

  lemma PlugUp<T>(p: Path<T>, t: Tree<T>)
    requires p.Step?
    ensures Plug(p, t) == Plug(p.up, Join(p.side, t, p.elem, p.color, p.sib))
  {}

  /** The subtree whose root is the `k`-th element. */
  lemma LocateIndex<T>(t: Tree<T>, k: nat) returns (p: Path<T>, s: Tree<T>)
    requires Distinct(t) && k < |InOrder(t)|
    ensures Plug(p, s) == t && s.Bin? && s.elem == InOrder(t)[k] && k == |Before(p)| + |InOrder(s.left)|
  {
    hide Plug, Distinct, Before, After;
    ElemsOfInOrder(t);
    assert InOrder(t)[k] in Members(InOrder(t));
    p, s := Locate(t, InOrder(t)[k]);
    PlugInOrder(p, s);
    InOrderNoDuplicates(t);
    assert InOrder(t)[|Before(p)| + |InOrder(s.left)|] == s.elem;
  }
}
