/** What the two laws of the colouring are for: the height of the tree. */
module RbHeight {
  import opened Arith
  import opened RbShape

  /** The number of nodes on the longest path. */
  function Height<T>(t: Tree<T>): nat {
    match t
    case Leaf => 0
    case Bin(l, _, _, r) => 1 + if Height(l) > Height(r) then Height(l) else Height(r)
  }

  /** A tree of n nodes is at most twice as high as the logarithm of n + 1: 2 to its height is at
      most the square of n + 1. */
  lemma LogarithmicHeight<T>(t: Tree<T>)
    requires RedBlack(t)
    ensures var n := |InOrder(t)| + 1; Two(Height(t)) <= n * n
  {
    hide Two, Height, InOrder, BlackHeight;
    var n, b := |InOrder(t)| + 1, BlackHeight(t);
    EnoughNodes(t);
    AlternateColors(t);
    TwoMono(Height(t), b + b);
    TwoAdd(b, b);
    MulLe(Two(b), Two(b), n);
    MulLe(n, Two(b), n);
  }

  /** Equal black heights: a tree of black height b has at least 2^b - 1 nodes. */
  lemma {:induction false} EnoughNodes<T>(t: Tree<T>)
    requires Balanced(t)
    ensures Two(BlackHeight(t)) <= |InOrder(t)| + 1
  {
    if t.Bin? {
      EnoughNodes(t.left);
      EnoughNodes(t.right);
    }
  }

  /** No two red nodes in a row: a path is at most twice as long as its black nodes, and one more
      below a red root. */
  lemma {:induction false} AlternateColors<T>(t: Tree<T>)
    requires Balanced(t) && NoRedRed(t)
    ensures Height(t) <= 2 * BlackHeight(t) + if IsRed(t) then 1 else 0
  {
    if t.Bin? {
      AlternateColors(t.left);
      AlternateColors(t.right);
    }
  }
}
