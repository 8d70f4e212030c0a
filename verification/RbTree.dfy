module RbTree {

  datatype Side = Left | Right {
    function Opposite(): Side { if Left? then Right else Left }
  }

  class RbNode<T> {
    const entry: T
    var parent: RbNode?<T>
    var red: bool
    var left: RbNode?<T>
    var right: RbNode?<T>
    ghost var lo: nat
    ghost var pos: nat
    ghost var hi: nat
    ghost var bh: nat

    constructor (entry: T)
      ensures this.entry == entry
      ensures parent == this
    {
      this.entry := entry;
      new;
      parent := this;
    }

    function Child(s: Side): RbNode?<T>
      reads this
    {
      if s.Left? then left else right
    }
  }

  class RbRoot<T> {
    var node: RbNode?<T>
    ghost var nodes: set<RbNode<T>>
    ghost var order: seq<RbNode<T>>

    constructor ()
      ensures Valid() && nodes == {} && order == []
    {
      node := null;
      nodes := {};
      order := [];
    }

    ghost predicate InOrder()
      reads this, nodes
    {
      && (forall n {:trigger Indexed(n)} | n in nodes :: Indexed(n))
      && (forall i | 0 <= i < |order| :: Placed(i))
    }

    ghost predicate Indexed(n: RbNode<T>)
      requires n in nodes
      reads this, nodes
    {
      n.pos < |order| && order[n.pos] == n
    }

    ghost predicate Placed(i: nat)
      requires i < |order|
      reads this, nodes
    {
      order[i] in nodes && order[i].pos == i
    }

    ghost predicate LocalLeft(n: RbNode<T>)
      requires n in nodes
      reads this, nodes
    {
      if n.left == null then n.lo == n.pos
      else n.left in nodes && n.left.parent == n && n.left.lo == n.lo && n.left.hi == n.pos
    }

    ghost predicate LocalRight(n: RbNode<T>)
      requires n in nodes
      reads this, nodes
    {
      if n.right == null then n.hi == n.pos + 1
      else n.right in nodes && n.right.parent == n && n.right.lo == n.pos + 1 && n.right.hi == n.hi
    }

    ghost predicate LocalSpan(n: RbNode<T>)
      requires n in nodes
      reads this, nodes
    {
      n.lo <= n.pos < n.hi <= |order|
    }

    ghost predicate LocalUp(n: RbNode<T>)
      requires n in nodes
      reads this, nodes
    {
      if n.parent == null then node == n
      else n.parent in nodes && (n.parent.left == n || n.parent.right == n)
    }

    ghost predicate RootOk()
      reads this, nodes
    {
      if node == null then order == []
      else node in nodes && node.parent == null && node.lo == 0 && node.hi == |order|
    }

    ghost predicate Linked()
      reads this, nodes
    {
      && InOrder() && RootOk()
      && (forall n {:trigger LocalLeft(n)} | n in nodes :: LocalLeft(n))
      && (forall n {:trigger LocalRight(n)} | n in nodes :: LocalRight(n))
      && (forall n {:trigger LocalSpan(n)} | n in nodes :: LocalSpan(n))
      && (forall n {:trigger LocalUp(n)} | n in nodes :: LocalUp(n))
    }

    // What rotating n towards side s does to the links: n's child r on the other side takes n's place.
    twostate predicate Rotated(s: Side, n: RbNode<T>)
      reads this, nodes
    {
      && n in old(nodes) && old(n.Child(s.Opposite())) != null && old(n.Child(s.Opposite())) in old(nodes)
      && var r := old(n.Child(s.Opposite()));
      && nodes == old(nodes) && order == old(order)
      && node == (if old(node) == n then r else old(node))
      && n.Child(s) == old(n.Child(s)) && n.Child(s.Opposite()) == old(r.Child(s))
      && r.Child(s) == n && r.Child(s.Opposite()) == old(r.Child(s.Opposite()))
      && n.parent == r && r.parent == old(n.parent)
      && n.lo == (if s.Left? then old(n.lo) else old(r.pos) + 1) && n.hi == (if s.Left? then old(r.pos) else old(n.hi))
      && r.lo == old(n.lo) && r.hi == old(n.hi)
      && (forall m <- nodes :: m.pos == old(m.pos))
      && (forall m <- nodes | m != n && m != r ::
            && m.left == (if old(m.left) == n then r else old(m.left))
            && m.right == (if old(m.right) == n then r else old(m.right))
            && m.parent == (if m == old(r.Child(s)) then n else old(m.parent))
            && m.lo == old(m.lo) && m.hi == old(m.hi))
    }

    twostate lemma RotatedLocalLeft(t: (Side, RbNode<T>))
      requires old(Linked()) && Rotated(t.0, t.1)
      ensures forall m <- nodes :: LocalLeft(m)
    {
      var (s, n) := t;
      var r := old(n.Child(s.Opposite()));
      assert old(LocalLeft(n) && LocalRight(n) && LocalLeft(r) && LocalRight(r) && LocalSpan(n) && LocalSpan(r));
      forall m <- nodes ensures LocalLeft(m) { assert old(LocalLeft(m) && LocalRight(m) && LocalSpan(m)); }
    }

    twostate lemma RotatedLocalRight(t: (Side, RbNode<T>))
      requires old(Linked()) && Rotated(t.0, t.1)
      ensures forall m <- nodes :: LocalRight(m)
    {
      var (s, n) := t;
      var r := old(n.Child(s.Opposite()));
      assert old(LocalLeft(n) && LocalRight(n) && LocalLeft(r) && LocalRight(r) && LocalSpan(n) && LocalSpan(r));
      forall m <- nodes ensures LocalRight(m) { assert old(LocalLeft(m) && LocalRight(m) && LocalSpan(m)); }
    }

    twostate lemma RotatedLocalSpan(t: (Side, RbNode<T>))
      requires old(Linked()) && Rotated(t.0, t.1)
      ensures forall m <- nodes :: LocalSpan(m)
    {
      var (s, n) := t;
      var r := old(n.Child(s.Opposite()));
      assert old(LocalLeft(n) && LocalRight(n) && LocalSpan(n) && LocalSpan(r));
      forall m <- nodes ensures LocalSpan(m) { assert old(LocalSpan(m)); }
    }

    twostate lemma RotatedLocalUp(t: (Side, RbNode<T>))
      requires old(Linked()) && Rotated(t.0, t.1)
      ensures forall m <- nodes :: LocalUp(m)
    {
      var (s, n) := t;
      var r := old(n.Child(s.Opposite()));
      assert old(LocalLeft(n) && LocalRight(n) && LocalUp(n) && LocalLeft(r) && LocalRight(r));
      assert old(r.parent) == n && n != r && old(n.parent) != r by { assert old(LocalSpan(n) && LocalSpan(r)); }
      forall m <- nodes ensures LocalUp(m) {
        assert old(LocalUp(m));
        if m != n && m != r && m != old(r.Child(s)) {
          assert m.parent == old(m.parent);
        }
      }
    }

    twostate lemma RotatedRoot(t: (Side, RbNode<T>))
      requires old(Linked()) && Rotated(t.0, t.1)
      ensures RootOk()
    {
      var r := old(t.1.Child(t.0.Opposite()));
      assert old(LocalUp(t.1) && LocalLeft(t.1) && LocalRight(t.1) && LocalLeft(r) && LocalRight(r));
    }

    twostate lemma SameOrder(n: RbNode<T>)
      requires old(InOrder()) && nodes == old(nodes) && order == old(order) && forall m <- nodes :: m.pos == old(m.pos)
      ensures InOrder()
    {
      forall i | 0 <= i < |order| ensures Placed(i) { assert old(Placed(i)); }
      forall m <- nodes ensures Indexed(m) { assert old(Indexed(m)); }
    }

    twostate lemma RotatedKeepsLinked(t: (Side, RbNode<T>))
      requires old(Linked()) && Rotated(t.0, t.1)
      ensures Linked()
    {
      RotatedLocalLeft(t);
      RotatedLocalRight(t);
      RotatedLocalSpan(t);
      RotatedLocalUp(t);
      SameOrder(t.1);
      RotatedRoot(t);
    }

    // The nodes a rotation of n with its child r writes are distinct, and only n's parent points down to n.
    ghost predicate Pivot(n: RbNode<T>, s: Side)
      reads this, nodes
    {
      && n in nodes
      && var r := n.Child(s.Opposite());
      && r != null && r in nodes && r != n
      && var inner := r.Child(s);
      && (inner != null ==> inner in nodes && inner != n && inner != r && inner != n.parent)
      && (if n.parent == null then node == n
         else n.parent in nodes && n.parent != n && n.parent != r && node != n && (n.parent.left == n <==> n.parent.right != n))
      && (forall m <- nodes | m != n.parent :: m.left != n && m.right != n)
    }

    method RotateLeft(n: RbNode<T>)
      requires Pivot(n, Left)
      modifies this`node, nodes`left, nodes`right, nodes`parent, nodes`lo, nodes`hi
      ensures Rotated(Left, n)
    {
      var right: RbNode<T> := n.right;
      var parent := n.parent;
      n.right := right.left;
      if n.right != null {
        right.left.parent := n;
      }
      right.left := n;
      right.parent := parent;
      if parent != null {
        if n == parent.left {
          parent.left := right;
        } else {
          parent.right := right;
        }
      } else {
        node := right;
      }
      n.parent := right;
      right.lo, right.hi := n.lo, n.hi;
      n.hi := right.pos;
    }

    method RotateRight(n: RbNode<T>)
      requires Pivot(n, Right)
      modifies this`node, nodes`left, nodes`right, nodes`parent, nodes`lo, nodes`hi
      ensures Rotated(Right, n)
    {
      var left: RbNode<T> := n.left;
      var parent := n.parent;
      n.left := left.right;
      if n.left != null {
        left.right.parent := n;
      }
      left.right := n;
      left.parent := parent;
      if parent != null {
        if n == parent.right {
          parent.right := left;
        } else {
          parent.left := left;
        }
      } else {
        node := left;
      }
      n.parent := left;
      left.lo, left.hi := n.lo, n.hi;
      n.lo := left.pos + 1;
    }

    lemma PivotOf(n: RbNode<T>, s: Side)
      requires Linked() && n in nodes && n.Child(s.Opposite()) != null
      ensures Pivot(n, s)
    {
      var r := n.Child(s.Opposite());
      assert LocalRight(n) && LocalLeft(n) && LocalUp(n) && LocalLeft(r) && LocalRight(r) && LocalUp(r) && LocalSpan(n) && LocalSpan(r);
      if n.parent != null {
        assert LocalLeft(n.parent) && LocalRight(n.parent) && LocalUp(n.parent) && LocalSpan(n.parent);
      }
      if r.Child(s) != null { assert LocalUp(r.Child(s)) && LocalSpan(r.Child(s)); }
      forall m <- nodes | m != n.parent ensures m.left != n && m.right != n { assert LocalLeft(m) && LocalRight(m); }
    }

    method Rotate(s: Side, n: RbNode<T>)
      requires Linked() && n in nodes && n.Child(s.Opposite()) != null
      modifies this`node, nodes`left, nodes`right, nodes`parent, nodes`lo, nodes`hi
      ensures Linked() && Rotated(s, n)
    {
      PivotOf(n, s);
      if s.Left? { RotateLeft(n); } else { RotateRight(n); }
      RotatedKeepsLinked((s, n));
    }

    // ----- Colours

    ghost predicate BlackOk(n: RbNode<T>)
      requires n in nodes
      reads this, nodes
    {
      && (n.left != null ==> n.left in nodes) && (n.right != null ==> n.right in nodes)
      && BlackHeight(n.left) == n.bh && BlackHeight(n.right) == n.bh
    }

    // n has no red-red edge, except possibly the one down to c.
    ghost predicate RedOk(n: RbNode<T>, c: RbNode?<T>)
      requires n in nodes
      reads this, nodes
    {
      && (n.left != null ==> n.left in nodes) && (n.right != null ==> n.right in nodes)
      && (n.red ==> (n.left == c || !IsRed(n.left)) && (n.right == c || !IsRed(n.right)))
    }

    // Every path below every node has the same number of black nodes.
    ghost predicate Blacks()
      reads this, nodes
    {
      forall m {:trigger BlackOk(m)} | m in nodes :: BlackOk(m)
    }

    // No red node has a red parent, except possibly c, and the root is black, except possibly when it is c.
    ghost predicate RedsBut(c: RbNode?<T>)
      reads this, nodes
    {
      && (forall m {:trigger RedOk(m, c)} | m in nodes :: RedOk(m, c))
      && (node != null ==> node in nodes && (node == c || !node.red))
    }

    ghost predicate Valid()
      reads this, nodes
    {
      Linked() && Blacks() && RedsBut(null)
    }

    // ----- Rotations with the colour exchange that always precedes them

    method RecolorTurn(s: Side, n: RbNode<T>)
      requires Pivot(n, s)
      modifies this`node, nodes`left, nodes`right, nodes`parent, nodes`lo, nodes`hi, nodes`red
      ensures Rotated(s, n)
      ensures forall m <- nodes :: m.red == (m == n || (m != old(n.Child(s.Opposite())) && old(m.red)))
    {
      n.Child(s.Opposite()).red := false;
      n.red := true;
      if s.Left? { RotateLeft(n); } else { RotateRight(n); }
    }

    method RotateRecolor(s: Side, n: RbNode<T>)
      requires Linked() && n in nodes && n.Child(s.Opposite()) != null
      modifies this`node, nodes`left, nodes`right, nodes`parent, nodes`lo, nodes`hi, nodes`red
      ensures Linked() && Rotated(s, n)
      ensures forall m <- nodes :: m.red == (m == n || (m != old(n.Child(s.Opposite())) && old(m.red)))
    {
      PivotOf(n, s);
      RecolorTurn(s, n);
      RotatedKeepsLinked((s, n));
    }

    // A rotation keeps every other node's black heights if the pivot's place keeps its own.
    twostate lemma RotatedBlacks(t: (Side, RbNode<T>))
      requires old(Linked()) && Rotated(t.0, t.1)
      requires BlackHeight(old(t.1.Child(t.0.Opposite()))) == old(BlackHeight(t.1))
      requires forall m <- nodes | m != t.1 && m != old(t.1.Child(t.0.Opposite())) ::
                 m.bh == old(m.bh) && (m.red == old(m.red) || old(m.parent == t.1.Child(t.0.Opposite())))
      ensures forall m <- nodes | m != t.1 && m != old(t.1.Child(t.0.Opposite())) && old(BlackOk(m)) :: BlackOk(m)
    {
      var (s, n) := t;
      var r := old(n.Child(s.Opposite()));
      assert old(LocalLeft(n) && LocalRight(n) && LocalSpan(n) && LocalSpan(r));
      forall m <- nodes | m != n && m != r && old(BlackOk(m)) ensures BlackOk(m) {
        assert old(LocalLeft(m) && LocalRight(m));
      }
    }

    // ----- Insertion fix-up

    // c is red under a red parent p, itself the child on side s of the black node g.
    ghost predicate RedPair(s: Side, c: RbNode<T>, p: RbNode<T>, g: RbNode<T>)
      reads this, nodes
    {
      && c in nodes && p in nodes && g in nodes && c != p && c != g && p != g
      && c.parent == p && p.parent == g && g.Child(s) == p && g.Child(s.Opposite()) != p
      && (p.left == c <==> p.right != c)
      && p.red && c.red && !g.red && p.bh == g.bh && c.bh == g.bh
      && var uncle := g.Child(s.Opposite()); (uncle != null ==> uncle in nodes && uncle != c && uncle.parent == g)
    }

    lemma RedPairOf(c: RbNode<T>)
      requires Linked() && Blacks() && RedsBut(c) && c in nodes && c.red && c.parent != null && c.parent.red
      ensures c.parent.parent != null
      ensures RedPair(if c.parent.parent.left == c.parent then Left else Right, c, c.parent, c.parent.parent)
      ensures c.hi - c.lo < c.parent.parent.hi - c.parent.parent.lo <= |order|
    {
      var p := c.parent;
      assert LocalUp(c) && LocalLeft(p) && LocalRight(p) && LocalSpan(c) && LocalSpan(p);
      assert LocalUp(p);
      var g := p.parent;
      assert LocalLeft(g) && LocalRight(g) && LocalSpan(g);
      assert BlackOk(p) && BlackOk(g) && RedOk(g, c);
    }

    twostate lemma SameLinks(x: RbNode<T>)
      requires old(Linked()) && nodes == old(nodes) && order == old(order) && node == old(node)
      requires forall m <- nodes :: m.left == old(m.left) && m.right == old(m.right) && m.parent == old(m.parent)
                && m.lo == old(m.lo) && m.pos == old(m.pos) && m.hi == old(m.hi)
      ensures Linked()
    {
      SameOrder(x);
      forall m <- nodes ensures LocalLeft(m) && LocalRight(m) {
        assert old(LocalLeft(m) && LocalRight(m));
      }
      forall m <- nodes ensures LocalSpan(m) && LocalUp(m) {
        assert old(LocalSpan(m) && LocalUp(m));
      }
    }

    // Painting the uncle and the parent black and the grandparent red.
    twostate predicate Painted(s: Side, p: RbNode<T>, g: RbNode<T>)
      reads this, nodes
    {
      && nodes == old(nodes) && node == old(node) && order == old(order)
      && (forall m <- nodes :: m.left == old(m.left) && m.right == old(m.right) && m.parent == old(m.parent)
                            && m.lo == old(m.lo) && m.pos == old(m.pos) && m.hi == old(m.hi))
      && (forall m <- nodes :: m.bh == if m == g then old(m.bh) + 1 else old(m.bh))
      && (forall m <- nodes :: m.red == (m == g || (m != p && m != old(g.Child(s.Opposite())) && old(m.red))))
    }

    method Paint(s: Side, uncle: RbNode<T>, p: RbNode<T>, g: RbNode<T>)
      requires uncle in nodes && p in nodes && g in nodes && uncle != g && p != g && g.Child(s.Opposite()) == uncle
      modifies nodes`red, nodes`bh
      ensures Painted(s, p, g)
    {
      uncle.red := false;
      p.red := false;
      g.red := true;
      g.bh := g.bh + 1;
    }

    twostate lemma PaintedBlacks(t: (Side, RbNode<T>, RbNode<T>, RbNode<T>))
      requires old(Linked() && Blacks() && RedPair(t.0, t.1, t.2, t.3) && IsRed(t.3.Child(t.0.Opposite())))
      requires Painted(t.0, t.2, t.3)
      ensures Blacks()
    {
      var (s, c, p, g) := t;
      var uncle := old(g.Child(s.Opposite()));
      assert forall x <- nodes :: BlackHeight(x) == old(BlackHeight(x)) + if x == p || x == uncle then 1 else 0;
      assert old(BlackOk(g));
      forall m <- nodes | m != g ensures BlackOk(m) {
        assert old(BlackOk(m) && LocalLeft(m) && LocalRight(m));
        assert m.left != p && m.left != uncle && m.right != p && m.right != uncle;
      }
    }

    twostate lemma PaintedReds(t: (Side, RbNode<T>, RbNode<T>, RbNode<T>))
      requires old(Linked() && RedsBut(t.1) && RedPair(t.0, t.1, t.2, t.3) && IsRed(t.3.Child(t.0.Opposite())))
      requires Painted(t.0, t.2, t.3)
      ensures RedsBut(t.3)
    {
      var (s, c, p, g) := t;
      forall m <- nodes ensures RedOk(m, g) {
        assert old(RedOk(m, c) && LocalLeft(m) && LocalRight(m));
      }
    }

    method RecolorUncle(s: Side, c: RbNode<T>, p: RbNode<T>, g: RbNode<T>, uncle: RbNode<T>)
      requires Linked() && Blacks() && RedsBut(c) && RedPair(s, c, p, g)
      requires uncle == g.Child(s.Opposite()) && uncle.red
      modifies nodes`red, nodes`bh
      ensures Linked() && Blacks() && RedsBut(g) && g.red
    {
      Paint(s, uncle, p, g);
      SameLinks(c);
      PaintedBlacks((s, c, p, g));
      PaintedReds((s, c, p, g));
    }

    // c hangs inside: after turning p outwards, the pair is p under c.
    method TurnInner(s: Side, c: RbNode<T>, p: RbNode<T>, g: RbNode<T>)
      requires Linked() && Blacks() && RedsBut(c) && RedPair(s, c, p, g) && p.Child(s.Opposite()) == c
      modifies this`node, nodes`left, nodes`right, nodes`parent, nodes`lo, nodes`hi
      ensures Linked() && Blacks() && RedsBut(p) && RedPair(s, p, c, g)
      ensures p == c.Child(s) && g.Child(s.Opposite()) == old(g.Child(s.Opposite()))
    {
      Rotate(s, p);
      InnerBlacks((s, c, p, g));
      InnerReds((s, c, p, g));
      InnerPair((s, c, p, g));
    }

    twostate lemma InnerBlacks(t: (Side, RbNode<T>, RbNode<T>, RbNode<T>))
      requires old(Linked() && Blacks() && RedPair(t.0, t.1, t.2, t.3) && t.2.Child(t.0.Opposite()) == t.1)
      requires Rotated(t.0, t.2) && forall m <- nodes :: m.red == old(m.red) && m.bh == old(m.bh)
      ensures Blacks()
    {
      var (s, c, p, g) := t;
      assert BlackOk(p) && BlackOk(c) by {
        assert old(BlackOk(c) && BlackOk(p) && LocalLeft(c) && LocalRight(c) && LocalLeft(p) && LocalRight(p));
      }
      RotatedBlacks((s, p));
    }

    twostate lemma InnerPair(t: (Side, RbNode<T>, RbNode<T>, RbNode<T>))
      requires old(Linked() && RedPair(t.0, t.1, t.2, t.3) && t.2.Child(t.0.Opposite()) == t.1)
      requires Rotated(t.0, t.2) && forall m <- nodes :: m.red == old(m.red) && m.bh == old(m.bh)
      ensures RedPair(t.0, t.2, t.1, t.3)
      ensures t.1.Child(t.0) == t.2 && t.3.Child(t.0.Opposite()) == old(t.3.Child(t.0.Opposite()))
    {
      var (s, c, p, g) := t;
      assert old(LocalLeft(p) && LocalRight(p) && LocalLeft(c) && LocalRight(c) && LocalLeft(g) && LocalRight(g));
    }

    twostate lemma InnerReds(t: (Side, RbNode<T>, RbNode<T>, RbNode<T>))
      requires old(Linked() && RedsBut(t.1) && RedPair(t.0, t.1, t.2, t.3) && t.2.Child(t.0.Opposite()) == t.1)
      requires Rotated(t.0, t.2) && forall m <- nodes :: m.red == old(m.red)
      ensures RedsBut(t.2)
    {
      var (s, c, p, g) := t;
      assert old(LocalLeft(p) && LocalRight(p) && LocalLeft(c) && LocalRight(c));
      assert old(RedOk(p, c) && RedOk(c, c));
      forall m <- nodes ensures RedOk(m, p) {
        assert old(RedOk(m, c) && LocalLeft(m) && LocalRight(m));
      }
    }

    // c hangs outside and the uncle is black: turning g ends the fix-up.
    method TurnOuter(s: Side, c: RbNode<T>, p: RbNode<T>, g: RbNode<T>)
      requires Linked() && Blacks() && RedsBut(c) && RedPair(s, c, p, g) && p.Child(s) == c
      requires !IsRed(g.Child(s.Opposite()))
      modifies this`node, nodes`left, nodes`right, nodes`parent, nodes`lo, nodes`hi, nodes`red
      ensures Linked() && Blacks() && RedsBut(c) && c.parent == p && !p.red
    {
      RotateRecolor(s.Opposite(), g);
      OuterBlacks((s, c, p, g));
      OuterReds((s, c, p, g));
      assert c.parent == p by { assert LocalLeft(p) && LocalRight(p); }
    }

    twostate lemma OuterBlacks(t: (Side, RbNode<T>, RbNode<T>, RbNode<T>))
      requires old(Linked() && Blacks() && RedPair(t.0, t.1, t.2, t.3) && t.2.Child(t.0) == t.1)
      requires Rotated(t.0.Opposite(), t.3)
      requires forall m <- nodes :: m.red == (m == t.3 || (m != t.2 && old(m.red))) && m.bh == old(m.bh)
      ensures Blacks()
    {
      var (s, c, p, g) := t;
      assert BlackOk(g) && BlackOk(p) by {
        assert old(BlackOk(g) && BlackOk(p) && LocalLeft(p) && LocalRight(p) && LocalLeft(g) && LocalRight(g));
      }
      RotatedBlacks((s.Opposite(), g));
    }

    twostate lemma OuterReds(t: (Side, RbNode<T>, RbNode<T>, RbNode<T>))
      requires old(Linked() && RedsBut(t.1) && RedPair(t.0, t.1, t.2, t.3) && t.2.Child(t.0) == t.1 && !IsRed(t.3.Child(t.0.Opposite())))
      requires Rotated(t.0.Opposite(), t.3) && forall m <- nodes :: m.red == (m == t.3 || (m != t.2 && old(m.red)))
      ensures RedsBut(t.1)
    {
      var (s, c, p, g) := t;
      assert old(LocalLeft(p) && LocalRight(p) && LocalLeft(g) && LocalRight(g) && LocalSpan(g) && LocalSpan(p));
      assert old(RedOk(p, c) && RedOk(c, c) && RedOk(g, c));
      forall m <- nodes ensures RedOk(m, c) {
        assert old(RedOk(m, c) && LocalLeft(m) && LocalRight(m));
      }
    }

    twostate lemma RootBlackened(c: RbNode<T>)
      requires old(Linked() && Blacks() && RedsBut(c) && node != null && c in nodes && (c.parent == null || !c.parent.red))
      requires nodes == old(nodes) && node == old(node) && order == old(order)
      requires forall m <- nodes :: m.left == old(m.left) && m.right == old(m.right) && m.parent == old(m.parent)
                && m.lo == old(m.lo) && m.pos == old(m.pos) && m.hi == old(m.hi) && m.bh == old(m.bh)
                && m.red == (m != node && old(m.red))
      ensures Valid()
    {
      SameLinks(c);
      assert old(LocalUp(c));
      forall m <- nodes ensures BlackOk(m) && RedOk(m, null) {
        assert old(BlackOk(m) && RedOk(m, c) && LocalLeft(m) && LocalRight(m));
      }
    }

    method BlackenRoot(c: RbNode<T>)
      requires Linked() && Blacks() && RedsBut(c) && c in nodes && (c.parent == null || !c.parent.red)
      modifies nodes`red
      ensures Valid()
    {
      assert Indexed(c);
      node.red := false;
      RootBlackened(c);
    }

    // A red-black tree but for the red edge into c.
    ghost predicate Fixing(c: RbNode<T>)
      reads this, nodes
    {
      Linked() && Blacks() && RedsBut(c) && c in nodes
    }

    // The red pair at c hangs under a black uncle: one or two turns settle it.
    method TurnPair(s: Side, c: RbNode<T>, p: RbNode<T>, g: RbNode<T>) returns (top: RbNode<T>)
      requires Fixing(c) && RedPair(s, c, p, g) && !IsRed(g.Child(s.Opposite()))
      modifies this`node, nodes`left, nodes`right, nodes`parent, nodes`lo, nodes`hi, nodes`red
      ensures Fixing(top) && top.parent != null && !top.parent.red
    {
      if p.Child(s.Opposite()) == c {
        TurnInner(s, c, p, g);
        TurnOuter(s, p, c, g);
        top := p;
      } else {
        TurnOuter(s, c, p, g);
        top := c;
      }
    }

    // One round of the loop: either the pair moves up to the grandparent, or it is settled.
    method InsertRound(n: RbNode<T>) returns (next: RbNode<T>)
      requires Fixing(n) && n.red && n.parent != null && n.parent.red
      modifies this`node, nodes`left, nodes`right, nodes`parent, nodes`lo, nodes`hi, nodes`red, nodes`bh
      ensures Fixing(next) && old(n.hi - n.lo) <= |order|
      ensures next.parent != null && next.parent.red ==> next.red && old(n.hi - n.lo) < next.hi - next.lo
    {
      RedPairOf(n);
      var parent: RbNode<T> := n.parent;
      var gparent: RbNode<T> := parent.parent;
      var s := if parent == gparent.left then Left else Right;
      var uncle := gparent.Child(s.Opposite());
      if uncle != null && uncle.red {
        RecolorUncle(s, n, parent, gparent, uncle);
        next := gparent;
      } else {
        next := TurnPair(s, n, parent, gparent);
      }
    }

    method InsertColor(node: RbNode<T>)
      requires Fixing(node) && node.red
      modifies this`node, nodes`left, nodes`right, nodes`parent, nodes`lo, nodes`hi, nodes`red, nodes`bh
      ensures Valid()
    {
      var n := node;
      while n.parent != null && n.parent.red
        invariant Fixing(n) && (n.parent != null && n.parent.red ==> n.red)
        decreases if n.parent != null && n.parent.red then |order| + 1 - (n.hi - n.lo) else 0
      {
        n := InsertRound(n);
      }
      BlackenRoot(n);
    }

    // ----- Linking a new leaf

    // Where a leaf hung on side s of p goes in the in-order sequence.
    ghost function Slot(p: RbNode?<T>, s: Side): nat
      reads p
    {
      if p == null then 0 else if s.Left? then p.pos else p.pos + 1
    }

    // The link a search ends at: an empty child, or the root of an empty tree.
    ghost predicate OpenLink(p: RbNode?<T>, s: Side)
      reads this, nodes
    {
      if p == null then node == null else p in nodes && p.Child(s) == null
    }

    twostate predicate LeafLinked(n: RbNode<T>, p: RbNode?<T>, s: Side)
      reads this, nodes
    {
      && n !in old(nodes) && nodes == old(nodes) + {n}
      && var k := old(Slot(p, s));
      && k <= |old(order)| && order == old(order)[..k] + [n] + old(order)[k..]
      && (p != null ==> p in old(nodes))
      && n.parent == p && n.left == null && n.right == null && n.red && n.bh == 0
      && n.lo == k && n.pos == k && n.hi == k + 1
      && node == (if p == null then n else old(node))
      && (forall m <- old(nodes) ::
            && m.parent == old(m.parent) && m.red == old(m.red) && m.bh == old(m.bh)
            && m.left == (if m == p && s.Left? then n else old(m.left))
            && m.right == (if m == p && s.Right? then n else old(m.right))
            && m.pos == old(if m.pos >= k then m.pos + 1 else m.pos)
            && m.lo == old(if m.lo > k || (s.Right? && m.lo == k) then m.lo + 1 else m.lo)
            && m.hi == old(if m.hi > k || (s.Right? && m.hi == k) then m.hi + 1 else m.hi))
    }

    method LinkNode(n: RbNode<T>, p: RbNode?<T>, s: Side)
      requires n !in nodes && OpenLink(p, s) && (p != null ==> p.pos < |order|)
      modifies this, n, nodes
      ensures LeafLinked(n, p, s)
    {
      ghost var k := Slot(p, s);
      n.parent := p;
      n.red := true;
      n.left, n.right := null, null;
      if p == null {
        node := n;
      } else if s.Left? {
        p.left := n;
      } else {
        p.right := n;
      }
      forall m <- nodes {
        m.lo := if m.lo > k || (s.Right? && m.lo == k) then m.lo + 1 else m.lo;
      }
      forall m <- nodes {
        m.hi := if m.hi > k || (s.Right? && m.hi == k) then m.hi + 1 else m.hi;
      }
      forall m <- nodes {
        m.pos := if m.pos >= k then m.pos + 1 else m.pos;
      }
      n.lo, n.pos, n.hi, n.bh := k, k, k + 1, 0;
      nodes := nodes + {n};
      order := order[..k] + [n] + order[k..];
    }

    twostate lemma LeafInOrder(t: (RbNode<T>, RbNode?<T>, Side))
      requires old(Linked() && OpenLink(t.1, t.2)) && LeafLinked(t.0, t.1, t.2)
      ensures InOrder()
    {
      var (n, p, s) := t;
      var k := old(Slot(p, s));
      forall i | 0 <= i < |order| ensures Placed(i) {
        if i != k {
          var j := if i < k then i else i - 1;
          assert order[i] == old(order)[j];
          assert old(Placed(j));
        }
      }
      forall m <- nodes ensures Indexed(m) {
        if m != n {
          var j := old(m.pos);
          assert old(Indexed(m));
          assert order[if j < k then j else j + 1] == m;
        }
      }
    }

    twostate lemma LeafSpan(t: (RbNode<T>, RbNode?<T>, Side))
      requires old(Linked() && OpenLink(t.1, t.2)) && LeafLinked(t.0, t.1, t.2)
      ensures RootOk() && forall m <- nodes :: LocalSpan(m)
    {
      var (n, p, s) := t;
      assert |order| == |old(order)| + 1;
      assert p != null ==> old(LocalSpan(p));
      forall m <- nodes ensures LocalSpan(m) {
        if m != n { assert old(LocalSpan(m)); }
      }
    }

    twostate lemma LeafLocalLeft(t: (RbNode<T>, RbNode?<T>, Side))
      requires old(Linked() && OpenLink(t.1, t.2)) && LeafLinked(t.0, t.1, t.2)
      ensures forall m <- nodes :: LocalLeft(m)
    {
      var (n, p, s) := t;
      assert p != null ==> old(LocalLeft(p) && LocalRight(p) && LocalSpan(p));
      forall m <- nodes ensures LocalLeft(m) {
        if m != n {
          assert old(LocalSpan(m) && LocalLeft(m));
          assert p != null && m != p ==> old(m.pos != p.pos) by { assert old(Indexed(m) && Indexed(p)); }
        }
      }
    }

    twostate lemma LeafLocalRight(t: (RbNode<T>, RbNode?<T>, Side))
      requires old(Linked() && OpenLink(t.1, t.2)) && LeafLinked(t.0, t.1, t.2)
      ensures forall m <- nodes :: LocalRight(m)
    {
      var (n, p, s) := t;
      assert p != null ==> old(LocalLeft(p) && LocalRight(p) && LocalSpan(p));
      forall m <- nodes ensures LocalRight(m) {
        if m != n {
          assert old(LocalSpan(m) && LocalRight(m));
          assert p != null && m != p ==> old(m.pos != p.pos) by { assert old(Indexed(m) && Indexed(p)); }
        }
      }
    }

    twostate lemma LeafLocalUp(t: (RbNode<T>, RbNode?<T>, Side))
      requires old(Linked() && OpenLink(t.1, t.2)) && LeafLinked(t.0, t.1, t.2)
      ensures forall m <- nodes :: LocalUp(m)
    {
      var (n, p, s) := t;
      forall m <- nodes ensures LocalUp(m) {
        if m != n { assert old(LocalUp(m)); }
      }
    }

    twostate lemma LeafColours(t: (RbNode<T>, RbNode?<T>, Side))
      requires old(Valid() && OpenLink(t.1, t.2)) && LeafLinked(t.0, t.1, t.2)
      ensures Blacks() && RedsBut(t.0)
    {
      var (n, p, s) := t;
      forall m <- nodes ensures BlackOk(m) && RedOk(m, n) {
        if m != n { assert old(BlackOk(m) && RedOk(m, null)); }
      }
    }

    twostate lemma LeafKeeps(t: (RbNode<T>, RbNode?<T>, Side))
      requires old(Valid() && OpenLink(t.1, t.2)) && LeafLinked(t.0, t.1, t.2)
      ensures Fixing(t.0)
    {
      LeafInOrder(t);
      LeafSpan(t);
      LeafLocalLeft(t);
      LeafLocalRight(t);
      LeafLocalUp(t);
      LeafColours(t);
    }

    method Insert(n: RbNode<T>, p: RbNode?<T>, s: Side)
      requires Valid() && n !in nodes && OpenLink(p, s)
      modifies this, n, nodes
      ensures Valid() && nodes == old(nodes) + {n}
      ensures old(Slot(p, s)) <= |old(order)|
      ensures order == old(order)[..old(Slot(p, s))] + [n] + old(order)[old(Slot(p, s))..]
    {
      if p != null { assert Indexed(p); }
      LinkNode(n, p, s);
      LeafKeeps((n, p, s));
      InsertColor(n);
    }

    // ----- Erase fix-up

    // x, the child of p, is one black node short.
    ghost predicate ShortAt(x: RbNode?<T>, p: RbNode<T>)
      requires p in nodes && (x != null ==> x in nodes)
      reads this, nodes
    {
      && (p.left == x || p.right == x)
      && var other := if p.left == x then p.right else p.left;
      && other != null && other in nodes && BlackHeight(other) == p.bh && BlackHeight(x) + 1 == p.bh
    }

    // A red-black tree but for a black node missing at x, below p; when x is red, painting it black repairs the tree.
    ghost predicate Short(x: RbNode?<T>, p: RbNode?<T>)
      reads this, nodes
    {
      && Linked() && (x != null ==> x in nodes) && (p != null ==> p in nodes)
      && (if p == null then node == x else ShortAt(x, p))
      && (forall m <- nodes | m != p :: BlackOk(m))
      && (forall m <- nodes | m != x :: RedOk(m, x))
      && (node != null ==> node == x || !node.red)
    }

    // The links around a short x: p, its sibling other, and p distinct from both.
    ghost predicate Shortage(s: Side, x: RbNode?<T>, p: RbNode<T>, other: RbNode<T>)
      reads this, nodes
    {
      && p in nodes && other in nodes && p != other && (x != null ==> x in nodes && x != other && x != p)
      && p.Child(s) == x && p.Child(s.Opposite()) == other && other.parent == p
      && BlackHeight(other) == p.bh && BlackHeight(x) + 1 == p.bh && !IsRed(x)
      && BlackOk(other) && (p.red ==> !other.red)
      && (other.left != null ==> other.left != p && other.left.parent == other)
      && (other.right != null ==> other.right != p && other.right.parent == other)
      && (other.left != other.right || other.left == null)
      && p.parent != p && p.parent != other
    }

    lemma ShortageOf(x: RbNode?<T>, p: RbNode<T>)
      requires Short(x, p) && !IsRed(x)
      ensures var s := if p.left == x then Left else Right;
              p.Child(s.Opposite()) != null && Shortage(s, x, p, p.Child(s.Opposite()))
      ensures p.hi - p.lo <= |order|
    {
      var s := if p.left == x then Left else Right;
      var other := p.Child(s.Opposite());
      assert LocalLeft(p) && LocalRight(p) && LocalSpan(p);
      assert LocalLeft(other) && LocalRight(other) && LocalSpan(other) && BlackOk(other) && RedOk(p, x);
      assert LocalUp(p);
      assert p.parent != null ==> LocalSpan(p.parent) && LocalLeft(p.parent) && LocalRight(p.parent);
    }

    // The sibling is red: turning it above p gives x a black sibling.
    method TurnRedSibling(s: Side, x: RbNode?<T>, p: RbNode<T>, other: RbNode<T>)
      requires Short(x, p) && Shortage(s, x, p, other) && other.red
      modifies this`node, nodes`left, nodes`right, nodes`parent, nodes`lo, nodes`hi, nodes`red
      ensures Short(x, p) && p.red && p.Child(s) == x
    {
      RotateRecolor(s, p);
      RedSiblingBlacks((s, x, p, other));
      RedSiblingReds((s, x, p, other));
    }

    twostate lemma RedSiblingBlacks(t: (Side, RbNode?<T>, RbNode<T>, RbNode<T>))
      requires old(Short(t.1, t.2) && Shortage(t.0, t.1, t.2, t.3) && t.3.red)
      requires Rotated(t.0, t.2) && forall m <- nodes :: m.red == (m == t.2 || (m != t.3 && old(m.red))) && m.bh == old(m.bh)
      ensures (forall m <- nodes | m != t.2 :: BlackOk(m)) && ShortAt(t.1, t.2)
    {
      var (s, x, p, other) := t;
      assert BlackOk(other) && ShortAt(x, p);
      RotatedBlacks((s, p));
    }

    twostate lemma RedSiblingReds(t: (Side, RbNode?<T>, RbNode<T>, RbNode<T>))
      requires old(Short(t.1, t.2) && Shortage(t.0, t.1, t.2, t.3) && t.3.red)
      requires Rotated(t.0, t.2) && forall m <- nodes :: m.red == (m == t.2 || (m != t.3 && old(m.red)))
      ensures (forall m <- nodes | m != t.1 :: RedOk(m, t.1)) && (node != null ==> node == t.1 || !node.red)
    {
      var (s, x, p, other) := t;
      assert old(RedOk(other, x) && LocalLeft(p) && LocalRight(p));
      forall m <- nodes | m != x ensures RedOk(m, x) {
        assert old(RedOk(m, x) && LocalLeft(m) && LocalRight(m));
      }
    }

    // Painting the sibling red, which lowers p's black height by one.
    twostate predicate Lifted(p: RbNode<T>, other: RbNode<T>)
      reads this, nodes
    {
      && nodes == old(nodes) && node == old(node) && order == old(order)
      && (forall m <- nodes :: m.left == old(m.left) && m.right == old(m.right) && m.parent == old(m.parent)
                            && m.lo == old(m.lo) && m.pos == old(m.pos) && m.hi == old(m.hi))
      && (forall m <- nodes :: m.red == (m == other || old(m.red)))
      && (forall m <- nodes :: m.bh == if m == p then old(m.bh) - 1 else old(m.bh))
    }

    method PaintSibling(p: RbNode<T>, other: RbNode<T>)
      requires p in nodes && other in nodes && p != other && p.bh > 0
      modifies nodes`red, nodes`bh
      ensures Lifted(p, other)
    {
      other.red := true;
      p.bh := p.bh - 1;
    }

    // Both nephews are black: painting the sibling red moves the shortage up to p.
    method LiftShortage(s: Side, x: RbNode?<T>, p: RbNode<T>, other: RbNode<T>)
      requires Short(x, p) && Shortage(s, x, p, other) && !other.red && !IsRed(other.left) && !IsRed(other.right)
      modifies nodes`red, nodes`bh
      ensures Short(p, p.parent) && p.red == old(p.red)
    {
      PaintSibling(p, other);
      ShortageLifted((s, x, p, other));
    }

    lemma SpanGrows(p: RbNode<T>)
      requires Linked() && p in nodes
      ensures p.parent != null ==> p.parent in nodes && p.hi - p.lo < p.parent.hi - p.parent.lo
    {
      assert LocalUp(p) && LocalSpan(p);
      if p.parent != null {
        assert LocalLeft(p.parent) && LocalRight(p.parent) && LocalSpan(p.parent);
      }
    }

    twostate lemma ShortageLifted(t: (Side, RbNode?<T>, RbNode<T>, RbNode<T>))
      requires old(Short(t.1, t.2) && Shortage(t.0, t.1, t.2, t.3) && !t.3.red && !IsRed(t.3.left) && !IsRed(t.3.right))
      requires Lifted(t.2, t.3)
      ensures Short(t.2, t.2.parent)
    {
      var (s, x, p, other) := t;
      SameLinks(p);
      LiftedBlacks(t);
      LiftedReds(t);
      assert old(LocalUp(p));
      if p.parent != null {
        assert old(BlackOk(p.parent) && LocalLeft(p.parent) && LocalRight(p.parent) && LocalSpan(p));
      }
    }

    twostate lemma LiftedBlacks(t: (Side, RbNode?<T>, RbNode<T>, RbNode<T>))
      requires old(Short(t.1, t.2) && Shortage(t.0, t.1, t.2, t.3) && !t.3.red)
      requires Lifted(t.2, t.3)
      ensures forall m <- nodes | m != t.2.parent :: BlackOk(m)
    {
      var (s, x, p, other) := t;
      assert forall m <- nodes :: BlackHeight(m) == old(BlackHeight(m)) - if m == p || m == other then 1 else 0;
      forall m <- nodes | m != p.parent ensures BlackOk(m) {
        assert m != p ==> old(BlackOk(m));
        assert old(LocalLeft(m) && LocalRight(m));
      }
    }

    twostate lemma LiftedReds(t: (Side, RbNode?<T>, RbNode<T>, RbNode<T>))
      requires old(Short(t.1, t.2) && Shortage(t.0, t.1, t.2, t.3) && !IsRed(t.3.left) && !IsRed(t.3.right))
      requires Lifted(t.2, t.3)
      ensures (forall m <- nodes | m != t.2 :: RedOk(m, t.2)) && (node != null ==> node == t.2 || !node.red)
    {
      var (s, x, p, other) := t;
      assert old(LocalUp(other));
      forall m <- nodes | m != p ensures RedOk(m, p) {
        assert old(LocalLeft(m) && LocalRight(m));
        assert m != x ==> old(RedOk(m, x));
      }
    }

    // The red nephew is the near one: turning the sibling outwards makes it the far one.
    method TurnNear(s: Side, x: RbNode?<T>, p: RbNode<T>, other: RbNode<T>)
      requires Short(x, p) && Shortage(s, x, p, other) && !other.red
      requires IsRed(other.Child(s)) && !IsRed(other.Child(s.Opposite()))
      modifies this`node, nodes`left, nodes`right, nodes`parent, nodes`lo, nodes`hi, nodes`red
      ensures Short(x, p) && p.Child(s) == x
      ensures p.Child(s.Opposite()) == old(other.Child(s)) && !IsRed(p.Child(s.Opposite()))
      ensures IsRed(old(other.Child(s)).Child(s.Opposite()))
    {
      RotateRecolor(s.Opposite(), other);
      NearBlacks((s, x, p, other));
      NearReds((s, x, p, other));
    }

    twostate lemma NearBlacks(t: (Side, RbNode?<T>, RbNode<T>, RbNode<T>))
      requires old(Short(t.1, t.2) && Shortage(t.0, t.1, t.2, t.3) && !t.3.red && IsRed(t.3.Child(t.0)))
      requires Rotated(t.0.Opposite(), t.3)
      requires forall m <- nodes :: m.red == (m == t.3 || (m != old(t.3.Child(t.0)) && old(m.red))) && m.bh == old(m.bh)
      ensures (forall m <- nodes | m != t.2 :: BlackOk(m)) && ShortAt(t.1, t.2)
    {
      var (s, x, p, other) := t;
      var c := old(other.Child(s));
      assert old(BlackOk(c) && LocalLeft(c) && LocalRight(c));
      assert BlackOk(other) && BlackOk(c) && ShortAt(x, p);
      RotatedBlacks((s.Opposite(), other));
    }

    twostate lemma NearReds(t: (Side, RbNode?<T>, RbNode<T>, RbNode<T>))
      requires old(Short(t.1, t.2) && Shortage(t.0, t.1, t.2, t.3) && !t.3.red && IsRed(t.3.Child(t.0)) && !IsRed(t.3.Child(t.0.Opposite())))
      requires Rotated(t.0.Opposite(), t.3)
      requires forall m <- nodes :: m.red == (m == t.3 || (m != old(t.3.Child(t.0)) && old(m.red)))
      ensures (forall m <- nodes | m != t.1 :: RedOk(m, t.1)) && (node != null ==> node == t.1 || !node.red)
    {
      var (s, x, p, other) := t;
      var c := old(other.Child(s));
      assert old(RedOk(c, x) && LocalLeft(c) && LocalRight(c));
      forall m <- nodes | m != x ensures RedOk(m, x) {
        assert old(RedOk(m, x) && LocalLeft(m) && LocalRight(m));
      }
    }

    method TakeColorTurn(s: Side, p: RbNode<T>, other: RbNode<T>, far: RbNode<T>)
      requires Pivot(p, s) && other == p.Child(s.Opposite()) && far in nodes && far != p && far != other
      modifies this`node, nodes`left, nodes`right, nodes`parent, nodes`lo, nodes`hi, nodes`red, nodes`bh
      ensures Rotated(s, p)
      ensures forall m <- nodes :: m.red == (if m == other then old(p.red) else m != p && m != far && old(m.red))
      ensures forall m <- nodes :: m.bh == (if m == p then old(other.bh) else if m == other then old(other.bh) + 1 else old(m.bh))
    {
      PassColor(p, other, far);
      if s.Left? { RotateLeft(p); } else { RotateRight(p); }
    }

    method PassColor(p: RbNode<T>, other: RbNode<T>, far: RbNode<T>)
      requires {p, other, far} <= nodes && p != other && far != p && far != other
      modifies nodes`red, nodes`bh
      ensures forall m <- nodes :: m.red == (if m == other then old(p.red) else m != p && m != far && old(m.red))
      ensures forall m <- nodes :: m.bh == (if m == p then old(other.bh) else if m == other then old(other.bh) + 1 else old(m.bh))
    {
      other.red := p.red;
      p.red := false;
      far.red := false;
      p.bh, other.bh := other.bh, other.bh + 1;
    }

    // The far nephew is red: turning p puts a black node above x and ends the fix-up.
    method TurnFar(s: Side, x: RbNode?<T>, p: RbNode<T>, other: RbNode<T>)
      requires Short(x, p) && Shortage(s, x, p, other) && !other.red && IsRed(other.Child(s.Opposite()))
      modifies this`node, nodes`left, nodes`right, nodes`parent, nodes`lo, nodes`hi, nodes`red, nodes`bh
      ensures Valid()
    {
      assert LocalLeft(other) && LocalRight(other);
      PivotOf(p, s);
      TakeColorTurn(s, p, other, other.Child(s.Opposite()));
      RotatedKeepsLinked((s, p));
      FarBlacks((s, x, p, other));
      FarReds((s, x, p, other));
    }

    twostate lemma FarBlacks(t: (Side, RbNode?<T>, RbNode<T>, RbNode<T>))
      requires old(Short(t.1, t.2) && Shortage(t.0, t.1, t.2, t.3) && !t.3.red && IsRed(t.3.Child(t.0.Opposite())))
      requires Rotated(t.0, t.2)
      requires forall m <- nodes :: m.red == (if m == t.3 then old(t.2.red) else m != t.2 && m != old(t.3.Child(t.0.Opposite())) && old(m.red))
      requires forall m <- nodes :: m.bh == (if m == t.2 then old(t.3.bh) else if m == t.3 then old(t.3.bh) + 1 else old(m.bh))
      ensures Blacks()
    {
      var (s, x, p, other) := t;
      assert old(LocalLeft(other) && LocalRight(other));
      assert BlackOk(other) && BlackOk(p);
      RotatedBlacks((s, p));
    }

    twostate lemma FarReds(t: (Side, RbNode?<T>, RbNode<T>, RbNode<T>))
      requires old(Short(t.1, t.2) && Shortage(t.0, t.1, t.2, t.3) && !t.3.red && IsRed(t.3.Child(t.0.Opposite())))
      requires Rotated(t.0, t.2)
      requires forall m <- nodes :: m.red == (if m == t.3 then old(t.2.red) else m != t.2 && m != old(t.3.Child(t.0.Opposite())) && old(m.red))
      ensures RedsBut(null)
    {
      var (s, x, p, other) := t;
      assert old(LocalLeft(p) && LocalRight(p) && LocalLeft(other) && LocalRight(other));
      forall m <- nodes ensures RedOk(m, null) {
        assert old(LocalLeft(m) && LocalRight(m));
        assert m != x ==> old(RedOk(m, x));
      }
    }

    // Makes the sibling of x black, turning p when it is red.
    method BlackSibling(x: RbNode?<T>, p: RbNode<T>) returns (s: Side, other: RbNode<T>)
      requires Short(x, p) && !IsRed(x)
      modifies this`node, nodes`left, nodes`right, nodes`parent, nodes`lo, nodes`hi, nodes`red
      ensures Short(x, p) && Shortage(s, x, p, other) && !other.red
      ensures p.red || (p.lo == old(p.lo) && p.hi == old(p.hi))
      ensures old(p.hi - p.lo) <= |order|
    {
      ShortageOf(x, p);
      s := if p.left == x then Left else Right;
      other := p.Child(s.Opposite());
      if other.red {
        TurnRedSibling(s, x, p, other);
        ShortageOf(x, p);
        other := p.Child(s.Opposite());
      }
    }

    // One nephew at least is red: one or two turns settle the shortage.
    method TurnNephew(s: Side, x: RbNode?<T>, p: RbNode<T>, sibling: RbNode<T>)
      requires Short(x, p) && Shortage(s, x, p, sibling) && !sibling.red && (IsRed(sibling.left) || IsRed(sibling.right))
      modifies this`node, nodes`left, nodes`right, nodes`parent, nodes`lo, nodes`hi, nodes`red, nodes`bh
      ensures Valid()
    {
      var other := sibling;
      if !IsRed(other.Child(s.Opposite())) {
        TurnNear(s, x, p, other);
        ShortageOf(x, p);
        other := p.Child(s.Opposite());
      }
      TurnFar(s, x, p, other);
    }

    lemma ShortRoot()
      requires Valid()
      ensures Short(node, null)
    {
      forall m <- nodes ensures RedOk(m, node) { assert RedOk(m, null); }
    }

    // With a black sibling, the shortage moves up to p, or is settled and x becomes the root.
    method LiftOrTurn(s: Side, x: RbNode?<T>, p: RbNode<T>, other: RbNode<T>) returns (x': RbNode?<T>, p': RbNode?<T>)
      requires Short(x, p) && Shortage(s, x, p, other) && !other.red
      modifies this`node, nodes`left, nodes`right, nodes`parent, nodes`lo, nodes`hi, nodes`red, nodes`bh
      ensures Short(x', p')
      ensures p' == null || (x' == p && p.red == old(p.red) && p'.hi - p'.lo > old(p.hi - p.lo))
    {
      if !IsRed(other.left) && !IsRed(other.right) {
        SpanGrows(p);
        LiftShortage(s, x, p, other);
        x', p' := p, p.parent;
      } else {
        TurnNephew(s, x, p, other);
        ShortRoot();
        x', p' := node, null;
      }
    }

    // One round of the loop.
    method EraseRound(x: RbNode?<T>, p: RbNode<T>) returns (x': RbNode?<T>, p': RbNode?<T>)
      requires Short(x, p) && !IsRed(x)
      modifies this`node, nodes`left, nodes`right, nodes`parent, nodes`lo, nodes`hi, nodes`red, nodes`bh
      ensures Short(x', p') && old(p.hi - p.lo) <= |order|
      ensures IsRed(x') || p' == null || p'.hi - p'.lo > old(p.hi - p.lo)
    {
      var s, other := BlackSibling(x, p);
      x', p' := LiftOrTurn(s, x, p, other);
    }

    // Painting x black repairs the tree when x is red or the root.
    method FinishErase(x: RbNode?<T>, p: RbNode?<T>)
      requires Short(x, p) && (IsRed(x) || x == node)
      modifies nodes`red
      ensures Valid()
    {
      if x != null {
        x.red := false;
      }
      Repaired((x, p));
    }

    twostate lemma Repaired(t: (RbNode?<T>, RbNode?<T>))
      requires old(Short(t.0, t.1) && (IsRed(t.0) || t.0 == node))
      requires nodes == old(nodes) && node == old(node) && order == old(order)
      requires forall m <- nodes :: m.left == old(m.left) && m.right == old(m.right) && m.parent == old(m.parent)
                && m.lo == old(m.lo) && m.pos == old(m.pos) && m.hi == old(m.hi) && m.bh == old(m.bh)
                && m.red == (m != t.0 && old(m.red))
      ensures Valid()
    {
      var (x, p) := t;
      if x == null {
        assert forall m <- nodes :: old(Indexed(m));
        assert nodes == {};
      } else {
        SameLinks(x);
        assert old(LocalUp(x) && (p != null ==> LocalLeft(p) && LocalRight(p)));
        forall m <- nodes ensures BlackOk(m) && RedOk(m, null) {
          assert m != p ==> old(BlackOk(m));
          assert m != x ==> old(RedOk(m, x));
          assert old(LocalLeft(m) && LocalRight(m));
        }
      }
    }

    method EraseColor(child: RbNode?<T>, above: RbNode?<T>)
      requires Short(child, above)
      modifies this`node, nodes`left, nodes`right, nodes`parent, nodes`lo, nodes`hi, nodes`red, nodes`bh
      ensures Valid()
    {
      var x, p := child, above;
      while !IsRed(x) && x != node
        invariant Short(x, p)
        decreases if IsRed(x) || x == node then 0 else |order| + 1 - (p.hi - p.lo)
      {
        x, p := EraseRound(x, p);
      }
      FinishErase(x, p);
    }

    // ----- Unlinking a node with at most one child

    // z leaves the tree and its only child c, if any, takes its place.
    twostate predicate Spliced(z: RbNode<T>, c: RbNode?<T>)
      reads this, nodes
    {
      && z in old(nodes) && nodes == old(nodes) - {z}
      && var k, p := old(z.pos), old(z.parent);
      && k < |old(order)| && order == old(order)[..k] + old(order)[k + 1..]
      && node == (if p == null then c else old(node))
      && (forall m <- nodes ::
            && m.red == old(m.red) && m.bh == old(m.bh)
            && m.parent == (if m == c then p else old(m.parent))
            && m.left == (if old(m.left) == z then c else old(m.left))
            && m.right == (if old(m.right) == z then c else old(m.right))
            && m.pos == old(if m.pos > k then m.pos - 1 else m.pos)
            && m.lo == old(if m.lo > k then m.lo - 1 else m.lo)
            && m.hi == old(if m.hi > k then m.hi - 1 else m.hi))
    }

    // Only z's parent points down to z.
    ghost predicate Splicing(z: RbNode<T>, c: RbNode?<T>)
      reads this, nodes
    {
      && z in nodes && z.pos < |order| && (c != null ==> c in nodes && c != z)
      && (z.parent != null ==> z.parent in nodes && z.parent != z && z.parent != c && (z.parent.left == z <==> z.parent.right != z))
      && (forall m <- nodes | m != z.parent :: m.left != z && m.right != z)
    }

    ghost method CloseGap(z: RbNode<T>, k: nat)
      requires z in nodes && k < |order|
      modifies this`nodes, this`order, nodes`pos, nodes`lo, nodes`hi
      ensures nodes == old(nodes) - {z} && order == old(order)[..k] + old(order)[k + 1..]
      ensures forall m <- nodes :: m.pos == old(if m.pos > k then m.pos - 1 else m.pos)
      ensures forall m <- nodes :: m.lo == old(if m.lo > k then m.lo - 1 else m.lo)
      ensures forall m <- nodes :: m.hi == old(if m.hi > k then m.hi - 1 else m.hi)
    {
      nodes := nodes - {z};
      order := order[..k] + order[k + 1..];
      forall m <- nodes {
        m.lo := if m.lo > k then m.lo - 1 else m.lo;
      }
      forall m <- nodes {
        m.hi := if m.hi > k then m.hi - 1 else m.hi;
      }
      forall m <- nodes {
        m.pos := if m.pos > k then m.pos - 1 else m.pos;
      }
    }

    method Splice(z: RbNode<T>, child: RbNode?<T>)
      requires Splicing(z, child)
      modifies this, nodes`left, nodes`right, nodes`parent, nodes`pos, nodes`lo, nodes`hi
      ensures Spliced(z, child)
    {
      var parent := z.parent;
      if child != null {
        child.parent := parent;
      }
      if parent != null {
        if parent.left == z {
          parent.left := child;
        } else {
          parent.right := child;
        }
      } else {
        node := child;
      }
      CloseGap(z, z.pos);
    }

    // z has at most one child, and c is it.
    ghost predicate OnlyChild(z: RbNode<T>, c: RbNode?<T>)
      requires z in nodes
      reads this, nodes
    {
      if z.left == null then c == z.right else z.right == null && c == z.left
    }

    lemma SplicingOf(z: RbNode<T>, c: RbNode?<T>)
      requires Linked() && z in nodes && OnlyChild(z, c)
      ensures Splicing(z, c)
    {
      assert LocalUp(z) && LocalLeft(z) && LocalRight(z) && LocalSpan(z);
      if z.parent != null {
        assert LocalLeft(z.parent) && LocalRight(z.parent) && LocalSpan(z.parent);
      }
      if c != null { assert LocalSpan(c); }
      forall m <- nodes | m != z.parent ensures m.left != z && m.right != z { assert LocalLeft(m) && LocalRight(m); }
    }

    twostate lemma OtherPositions(z: RbNode<T>)
      requires old(InOrder()) && z in old(nodes)
      ensures forall m <- old(nodes) | m != z :: old(m.pos) != old(z.pos)
    {
      forall m <- old(nodes) | m != z ensures old(m.pos) != old(z.pos) {
        assert old(Indexed(m) && Indexed(z));
      }
    }

    twostate lemma SplicedInOrder(t: (RbNode<T>, RbNode?<T>))
      requires old(InOrder()) && Spliced(t.0, t.1)
      ensures InOrder()
    {
      var (z, c) := t;
      var k := old(z.pos);
      OtherPositions(z);
      forall i | 0 <= i < |order| ensures Placed(i) {
        var j := if i < k then i else i + 1;
        var m := old(order)[j];
        assert order[i] == m;
        assert old(Placed(j));
      }
      forall m <- nodes ensures Indexed(m) {
        var j := old(m.pos);
        assert old(Indexed(m)) && j != k;
        assert order[if j < k then j else j - 1] == m;
      }
    }

    twostate lemma SplicedSpan(t: (RbNode<T>, RbNode?<T>))
      requires old(Linked()) && Spliced(t.0, t.1)
      ensures forall m <- nodes :: LocalSpan(m)
    {
      OtherPositions(t.0);
      forall m <- nodes ensures LocalSpan(m) {
        assert old(LocalSpan(m));
      }
    }

    twostate lemma SplicedRoot(t: (RbNode<T>, RbNode?<T>))
      requires old(Linked() && t.0 in nodes && OnlyChild(t.0, t.1)) && Spliced(t.0, t.1)
      ensures RootOk()
    {
      var (z, c) := t;
      assert old(LocalUp(z) && LocalLeft(z) && LocalRight(z) && LocalSpan(z));
    }

    twostate lemma SplicedLocalLeft(t: (RbNode<T>, RbNode?<T>))
      requires old(Linked() && t.0 in nodes && OnlyChild(t.0, t.1)) && Spliced(t.0, t.1)
      ensures forall m <- nodes :: LocalLeft(m)
    {
      var (z, c) := t;
      assert old(LocalSpan(z) && LocalLeft(z) && LocalRight(z));
      OtherPositions(z);
      forall m <- nodes ensures LocalLeft(m) {
        assert old(LocalSpan(m) && LocalLeft(m));
      }
    }

    twostate lemma SplicedLocalRight(t: (RbNode<T>, RbNode?<T>))
      requires old(Linked() && t.0 in nodes && OnlyChild(t.0, t.1)) && Spliced(t.0, t.1)
      ensures forall m <- nodes :: LocalRight(m)
    {
      var (z, c) := t;
      assert old(LocalSpan(z) && LocalLeft(z) && LocalRight(z));
      OtherPositions(z);
      forall m <- nodes ensures LocalRight(m) {
        assert old(LocalSpan(m) && LocalRight(m));
      }
    }

    twostate lemma SplicedLocalUp(t: (RbNode<T>, RbNode?<T>))
      requires old(Linked() && t.0 in nodes && OnlyChild(t.0, t.1)) && Spliced(t.0, t.1)
      ensures forall m <- nodes :: LocalUp(m)
    {
      var (z, c) := t;
      assert old(LocalSpan(z) && LocalLeft(z) && LocalRight(z) && LocalUp(z));
      forall m <- nodes ensures LocalUp(m) {
        assert old(LocalUp(m));
      }
    }

    twostate lemma SplicedBlacks(t: (RbNode<T>, RbNode?<T>))
      requires old(Valid() && t.0 in nodes && OnlyChild(t.0, t.1)) && Spliced(t.0, t.1)
      ensures forall m <- nodes | m != old(t.0.parent) || old(t.0.red) :: BlackOk(m)
    {
      var (z, c) := t;
      assert old(LocalLeft(z) && LocalRight(z) && LocalSpan(z) && BlackOk(z));
      forall m <- nodes | m != old(z.parent) || old(z.red) ensures BlackOk(m) {
        assert old(BlackOk(m) && LocalLeft(m) && LocalRight(m));
      }
    }

    twostate lemma SplicedShort(t: (RbNode<T>, RbNode?<T>))
      requires old(Linked() && t.0 in nodes && OnlyChild(t.0, t.1) && t.0.parent != null && !t.0.red) && Spliced(t.0, t.1)
      requires old(BlackOk(t.0) && t.0.parent in nodes && BlackOk(t.0.parent))
      ensures old(t.0.parent) in nodes && (t.1 != null ==> t.1 in nodes) && ShortAt(t.1, old(t.0.parent))
    {
      var (z, c) := t;
      var p := old(z.parent);
      assert old(LocalLeft(z) && LocalRight(z) && LocalUp(z) && LocalSpan(z));
      assert old(LocalLeft(p) && LocalRight(p) && LocalSpan(p));
    }

    twostate lemma SplicedReds(t: (RbNode<T>, RbNode?<T>))
      requires old(Valid() && t.0 in nodes && OnlyChild(t.0, t.1)) && Spliced(t.0, t.1)
      ensures forall m <- nodes :: RedOk(m, if old(t.0.red) then null else t.1)
      ensures node != null ==> node in nodes && (node == t.1 || !node.red)
      ensures old(t.0.red) && node != null ==> !node.red
    {
      var (z, c) := t;
      assert old(LocalLeft(z) && LocalRight(z) && LocalUp(z) && LocalSpan(z) && RedOk(z, null));
      forall m <- nodes ensures RedOk(m, if old(z.red) then null else c) {
        assert old(RedOk(m, null) && LocalLeft(m) && LocalRight(m));
      }
    }

    twostate lemma SplicedKeeps(t: (RbNode<T>, RbNode?<T>))
      requires old(Valid() && t.0 in nodes && OnlyChild(t.0, t.1)) && Spliced(t.0, t.1)
      ensures if old(t.0.red) then Valid() else Short(t.1, old(t.0.parent))
    {
      SplicedInOrder(t);
      SplicedSpan(t);
      SplicedRoot(t);
      SplicedLocalLeft(t);
      SplicedLocalRight(t);
      SplicedLocalUp(t);
      SplicedBlacks(t);
      SplicedReds(t);
      if old(t.0.parent != null && !t.0.red) {
        assert old(LocalUp(t.0));
        assert old(BlackOk(t.0) && BlackOk(t.0.parent));
        SplicedShort(t);
      }
      assert old(LocalLeft(t.0) && LocalRight(t.0) && LocalUp(t.0) && LocalSpan(t.0));
    }

    // ----- Unlinking a node with two children: its successor takes its place

    // y leaves its place below to its child c and takes z's place and colour.
    twostate predicate PromotedLinks(z: RbNode<T>, y: RbNode<T>)
      reads this, nodes
    {
      && z in old(nodes) && y in nodes && y != z && nodes == old(nodes) - {z}
      && var c := old(y.right);
      && var above := if old(y.parent) == z then y else old(y.parent);
      && node == (if old(z.parent) == null then y else old(node))
      && y.parent == old(z.parent) && y.left == old(z.left) && y.red == old(z.red)
      && y.right == (if old(y.parent) == z then c else old(z.right))
      && (forall m <- nodes | m != y :: m.red == old(m.red))
      && (forall m <- nodes | m != y :: m.parent == if m == c then above else if old(m.parent) == z then y else old(m.parent))
      && (forall m <- nodes | m != y :: m.left == if old(m.left) == z then y else if old(m.left) == y then c else old(m.left))
      && (forall m <- nodes | m != y :: m.right == if old(m.right) == z then y else old(m.right))
    }

    // The whole effect of unhooking z and promoting y: links, in-order sequence and spans.
    twostate predicate Promoted(z: RbNode<T>, y: RbNode<T>)
      reads this, nodes
    {
      && PromotedLinks(z, y)
      && var k := old(z.pos);
      && k < |old(order)| && order == old(order)[..k] + old(order)[k + 1..]
      && y.bh == old(z.bh) && y.lo == old(z.lo) && y.pos == k && y.hi + 1 == old(z.hi)
      && (forall m <- nodes | m != y ::
            && m.bh == old(m.bh)
            && m.pos == old(if m.pos > k then m.pos - 1 else m.pos)
            && m.lo == old(if m.lo > k + 1 then m.lo - 1 else m.lo)
            && m.hi == old(if m.hi > k + 1 then m.hi - 1 else m.hi))
    }

    // y is z's in-order successor, found leftmost below z's right child.
    ghost predicate Successor(z: RbNode<T>, y: RbNode<T>)
      reads this, nodes
    {
      && z in nodes && y in nodes && z.left != null && z.right != null
      && y.left == null && y.pos == z.pos + 1 && (y.parent == z <==> z.right == y)
    }

    method FindSuccessor(z: RbNode<T>) returns (y: RbNode<T>)
      requires Linked() && z in nodes && z.left != null && z.right != null
      ensures Successor(z, y)
    {
      assert LocalRight(z) && LocalLeft(z);
      y := z.right;
      while y.left != null
        invariant y in nodes && y.lo == z.pos + 1 && y.hi <= z.hi && (y.parent == z <==> z.right == y)
        decreases y.hi - y.lo
      {
        assert LocalLeft(y) && LocalSpan(y);
        y := y.left;
        assert LocalSpan(y);
      }
      assert LocalLeft(y);
    }

    // The nodes the promotion of y writes, and which nodes point to z and to y.
    ghost predicate Promoting(z: RbNode<T>, y: RbNode<T>)
      reads this, nodes
    {
      && z in nodes && y in nodes && z != y && z.pos < |order| && z.hi > 0
      && z.left != null && z.left in nodes && z.left != y && z.left != z && z.right != null && z.right in nodes && z.right != z
      && z.left != z.right && z.left.parent == z && z.right.parent == z
      && (z.parent != null ==> z.parent in nodes && z.parent != z && z.parent != y && z.parent != y.right
                               && z.parent != z.left && z.parent != z.right && (z.parent.left == z <==> z.parent.right != z))
      && (y.right != null ==> y.right in nodes && y.right != z && y.right != y && y.right != z.left && y.right != z.right && y.right.parent == y)
      && (if y.parent == z then z.right == y else
            y.parent != null && y.parent in nodes && y.parent != y && y.parent.left == y && z.right != y && y.parent != z.left && y.parent != y.right)
      && y.left == null
      && (forall m <- nodes | m != z.parent :: m.left != z && m.right != z)
      && (forall m <- nodes | m != y.parent :: m.left != y && m.right != y)
      && (y.parent != z ==> y.parent.right != y)
      && (forall m <- nodes | m.parent == z :: m == z.left || m == z.right)
    }

    lemma SamePosition(a: RbNode<T>, b: RbNode<T>)
      requires InOrder() && a in nodes && b in nodes && a.pos == b.pos
      ensures a == b
    {
      assert Indexed(a) && Indexed(b);
    }

    // The successor hangs from the left of its parent, unless it is z's right child.
    lemma SuccessorPlace(z: RbNode<T>, y: RbNode<T>)
      requires Linked() && Successor(z, y) && y.parent != z
      ensures y.parent != null && y.parent in nodes && y.parent.left == y && y.parent.pos > y.pos
    {
      assert LocalUp(y) && LocalLeft(y) && LocalSpan(y);
      if y.parent != null {
        assert LocalLeft(y.parent) && LocalRight(y.parent);
        if y.parent.left != y {
          SamePosition(y.parent, z);
        }
      }
    }

    lemma PromotingOf(z: RbNode<T>, y: RbNode<T>)
      requires Linked() && Successor(z, y)
      ensures Promoting(z, y)
    {
      assert LocalUp(z) && LocalLeft(z) && LocalRight(z) && LocalSpan(z);
      PointedOnce(z);
      PointedOnce(y);
      assert z.left.pos < z.pos by { assert LocalSpan(z.left); }
      assert z.right.pos > z.pos by { assert LocalSpan(z.right); }
      if y.parent != z { SuccessorPlace(z, y); }
      assert y.right != null ==> y.right.lo == z.pos + 2 && y.right.pos > y.pos && y.right in nodes && y.right.parent == y by {
        assert LocalRight(y);
        if y.right != null { assert LocalSpan(y.right); }
      }
      forall m <- nodes | m.parent == z ensures m == z.left || m == z.right { assert LocalUp(m); }
      assert z.parent != y && (y.right != null ==> z.parent != y.right) by {
        if z.parent != null { assert LocalLeft(z.parent) && LocalRight(z.parent) && LocalSpan(z.parent); }
      }
    }

    // Only n's parent points down to n, once, and it is none of n and its children.
    lemma PointedOnce(n: RbNode<T>)
      requires Linked() && n in nodes
      ensures forall m <- nodes | m != n.parent :: m.left != n && m.right != n
      ensures n.parent != null ==> n.parent in nodes && n.parent != n && n.parent != n.left && n.parent != n.right
      ensures n.parent != null ==> (n.parent.left == n <==> n.parent.right != n)
    {
      forall m <- nodes | m != n.parent ensures m.left != n && m.right != n { assert LocalLeft(m) && LocalRight(m); }
      assert LocalUp(n) && LocalLeft(n) && LocalRight(n) && LocalSpan(n);
      if n.parent != null {
        assert LocalLeft(n.parent) && LocalRight(n.parent) && LocalSpan(n.parent);
      }
    }

    // rb_erase's two-child case, statement by statement: first old's parent is made to point to n ...
    method HookAbove(old': RbNode<T>, n: RbNode<T>)
      requires old' in nodes && n in nodes && (old'.parent != null ==> old'.parent in nodes && (old'.parent.left == old' <==> old'.parent.right != old'))
      requires forall m <- nodes | m != old'.parent :: m.left != old' && m.right != old'
      modifies this`node, nodes`left, nodes`right
      ensures node == if old'.parent == null then n else old(node)
      ensures forall m <- nodes :: m.left == if old(m.left) == old' then n else old(m.left)
      ensures forall m <- nodes :: m.right == if old(m.right) == old' then n else old(m.right)
    {
      if old'.parent != null {
        if old'.parent.left == old' {
          old'.parent.left := n;
        } else {
          old'.parent.right := n;
        }
      } else {
        node := n;
      }
    }

    // ... then n is unhooked from its place and takes old's links and colour.
    method TakePlace(old': RbNode<T>, n: RbNode<T>) returns (child: RbNode?<T>, parent: RbNode<T>, red: bool)
      requires {old', n, old'.left, old'.right, n.parent} <= nodes && (n.right != null ==> n.right in nodes && n.right != old')
      requires n != old' && old'.left != old' && old'.left != n && (n.parent != old' ==> old'.right != old' && old'.right != n && n.parent != n)
      requires n.right != null ==> n.right != old'.left && n.right != old'.right && n.right != n
      requires old'.left != old'.right
      modifies nodes`left, nodes`right, nodes`parent, nodes`red
      ensures child == old(n.right) && red == old(n.red) && parent == if old(n.parent) == old' then n else old(n.parent)
      ensures forall m <- nodes :: m.red == if m == n then old(old'.red) else old(m.red)
      ensures forall m <- nodes :: m.left == if m == n then old(old'.left) else if m == old(n.parent) && m != old' then child else old(m.left)
      ensures forall m <- nodes :: m.right == if m == n && old(n.parent) != old' then old(old'.right) else old(m.right)
      ensures forall m <- nodes | m != n && m != old(old'.left) && (m != old(old'.right) || old(n.parent) == old') ::
                m.parent == if m == child && old(n.parent) != old' then parent else old(m.parent)
      ensures n.parent == old(old'.parent) && old(old'.left).parent == n && (old(n.parent) != old' ==> old(old'.right).parent == n)
    {
      child := n.right;
      parent := n.parent;
      red := n.red;
      if parent == old' {
        parent := n;
      } else {
        if child != null {
          child.parent := parent;
        }
        parent.left := child;
        n.right := old'.right;
        old'.right.parent := n;
      }
      n.parent, n.red := old'.parent, old'.red;
      n.left := old'.left;
      old'.left.parent := n;
    }

    method PromoteLinks(z: RbNode<T>, y: RbNode<T>) returns (child: RbNode?<T>, parent: RbNode<T>, red: bool)
      requires Promoting(z, y)
      modifies this`node, this`nodes, nodes`left, nodes`right, nodes`parent, nodes`red
      ensures PromotedLinks(z, y)
      ensures child == old(y.right) && red == old(y.red) && parent == if old(y.parent) == z then y else old(y.parent)
    {
      HookAbove(z, y);
      child, parent, red := TakePlace(z, y);
      nodes := nodes - {z};
    }

    method Promote(z: RbNode<T>, y: RbNode<T>) returns (child: RbNode?<T>, parent: RbNode<T>, red: bool)
      requires Promoting(z, y)
      modifies this, nodes
      ensures Promoted(z, y)
      ensures child == old(y.right) && red == old(y.red) && parent == if old(y.parent) == z then y else old(y.parent)
    {
      child, parent, red := PromoteLinks(z, y);
      CloseGapAt(y, z.pos, z.lo, z.hi - 1);
      y.bh := z.bh;
    }

    ghost method CloseGapAt(y: RbNode<T>, k: nat, lo: nat, hi: nat)
      requires y in nodes && k < |order|
      modifies this`order, nodes`pos, nodes`lo, nodes`hi
      ensures order == old(order)[..k] + old(order)[k + 1..]
      ensures y.pos == k && y.lo == lo && y.hi == hi
      ensures forall m <- nodes | m != y :: m.pos == old(if m.pos > k then m.pos - 1 else m.pos)
      ensures forall m <- nodes | m != y :: m.lo == old(if m.lo > k + 1 then m.lo - 1 else m.lo)
      ensures forall m <- nodes | m != y :: m.hi == old(if m.hi > k + 1 then m.hi - 1 else m.hi)
    {
      order := order[..k] + order[k + 1..];
      forall m <- nodes {
        m.lo := if m.lo > k + 1 then m.lo - 1 else m.lo;
      }
      forall m <- nodes {
        m.hi := if m.hi > k + 1 then m.hi - 1 else m.hi;
      }
      forall m <- nodes {
        m.pos := if m.pos > k then m.pos - 1 else m.pos;
      }
      y.lo, y.pos, y.hi := lo, k, hi;
    }

    twostate lemma PromotedPositions(t: (RbNode<T>, RbNode<T>))
      requires old(Linked() && Successor(t.0, t.1))
      ensures forall m <- old(nodes) | m != t.0 && m != t.1 :: old(m.pos) < old(t.0.pos) || old(m.pos) > old(t.1.pos)
    {
      OtherPositions(t.0);
      OtherPositions(t.1);
    }

    twostate lemma PromotedInOrder(t: (RbNode<T>, RbNode<T>))
      requires old(Linked() && Successor(t.0, t.1)) && Promoted(t.0, t.1)
      ensures InOrder()
    {
      var (z, y) := t;
      var k := old(z.pos);
      PromotedPositions(t);
      assert old(Indexed(z) && Indexed(y));
      forall i | 0 <= i < |order| ensures Placed(i) {
        var j := if i < k then i else i + 1;
        var m := old(order)[j];
        assert order[i] == m;
        assert old(Placed(j));
      }
      forall m <- nodes ensures Indexed(m) {
        var j := old(m.pos);
        assert old(Indexed(m)) && j != k;
        assert order[if j < k then j else j - 1] == m;
      }
    }

    twostate lemma PromotedSpan(t: (RbNode<T>, RbNode<T>))
      requires old(Linked() && Successor(t.0, t.1)) && Promoted(t.0, t.1)
      ensures RootOk() && forall m <- nodes :: LocalSpan(m)
    {
      var (z, y) := t;
      PromotedPositions(t);
      assert old(LocalUp(z) && LocalSpan(z) && LocalRight(z) && LocalSpan(z.right) && LocalSpan(y) && LocalRight(y) && LocalLeft(y));
      forall m <- nodes ensures LocalSpan(m) {
        assert old(LocalSpan(m));
      }
    }

    twostate lemma PromotedLocalLeft(t: (RbNode<T>, RbNode<T>))
      requires old(Promoting(t.0, t.1) && t.1.pos == t.0.pos + 1) && Promoted(t.0, t.1)
      requires old((forall m <- nodes :: LocalLeft(m)) && (forall m <- nodes :: LocalSpan(m)) && LocalRight(t.1))
      requires forall m <- nodes | m != t.1 :: old(m.pos) < old(t.0.pos) || old(m.pos) > old(t.1.pos)
      ensures forall m <- nodes | m != t.1 :: LocalLeft(m)
    {
      var (z, y) := t;
      assert old(LocalLeft(z) && LocalSpan(z) && LocalLeft(y) && LocalSpan(y));
      forall m <- nodes | m != y ensures LocalLeft(m) {
        assert old(LocalSpan(m) && LocalLeft(m));
        if old(m.left) != null && old(m.left) != z && old(m.left) != y {
          assert m.left == old(m.left) && m.left.parent == m;
        }
      }
    }

    twostate lemma PromotedLocalRight(t: (RbNode<T>, RbNode<T>))
      requires old(Promoting(t.0, t.1) && t.1.pos == t.0.pos + 1) && Promoted(t.0, t.1)
      requires old((forall m <- nodes :: LocalRight(m)) && (forall m <- nodes :: LocalSpan(m)))
      requires forall m <- nodes | m != t.1 :: old(m.pos) < old(t.0.pos) || old(m.pos) > old(t.1.pos)
      ensures forall m <- nodes | m != t.1 :: LocalRight(m)
    {
      var (z, y) := t;
      assert old(LocalRight(z) && LocalSpan(z) && LocalSpan(y));
      forall m <- nodes | m != y ensures LocalRight(m) {
        assert old(LocalSpan(m) && LocalRight(m));
        if old(m.right) != null && old(m.right) != z {
          assert m.right == old(m.right) && m.right.parent == m;
        }
      }
    }

    twostate lemma PromotedSelf(t: (RbNode<T>, RbNode<T>))
      requires old(Linked() && Successor(t.0, t.1) && Promoting(t.0, t.1)) && Promoted(t.0, t.1)
      ensures LocalLeft(t.1) && LocalRight(t.1)
    {
      var (z, y) := t;
      assert old(LocalLeft(z) && LocalRight(z) && LocalSpan(z) && LocalLeft(y) && LocalRight(y));
      assert old(LocalSpan(z.left) && LocalSpan(z.right));
    }

    twostate lemma PromotedLocalUp(t: (RbNode<T>, RbNode<T>))
      requires old(Linked() && Successor(t.0, t.1) && Promoting(t.0, t.1)) && Promoted(t.0, t.1)
      ensures forall m <- nodes :: LocalUp(m)
    {
      var (z, y) := t;
      assert old(LocalUp(z) && LocalUp(y));
      assert LocalUp(y);
      forall m <- nodes | m != y ensures LocalUp(m) {
        assert old(LocalUp(m));
        if m != old(y.right) && old(m.parent) != z {
          assert m.parent == old(m.parent);
        }
      }
    }

    twostate lemma PromotedBlacks(t: (RbNode<T>, RbNode<T>))
      requires old(Blacks() && Promoting(t.0, t.1)) && Promoted(t.0, t.1)
      ensures forall m <- nodes | m != t.1 && (m != old(t.1.parent) || old(t.1.red)) :: BlackOk(m)
    {
      var (z, y) := t;
      assert old(y.red) ==> BlackHeight(old(y.right)) == old(BlackHeight(y)) by { assert old(BlackOk(y)); }
      assert BlackHeight(y) == old(BlackHeight(z));
      assert forall m <- nodes | m != y :: BlackHeight(m) == old(BlackHeight(m));
      forall m <- nodes | m != y && (m != old(y.parent) || old(y.red)) ensures BlackOk(m) {
        assert old(BlackOk(m));
      }
    }

    twostate lemma PromotedSelfBlack(t: (RbNode<T>, RbNode<T>))
      requires old(Valid() && Successor(t.0, t.1) && Promoting(t.0, t.1)) && Promoted(t.0, t.1)
      requires old(t.1.parent != t.0 || t.1.red)
      ensures BlackOk(t.1)
    {
      var (z, y) := t;
      assert old(BlackOk(z) && BlackOk(y));
    }

    twostate lemma PromotedShort(t: (RbNode<T>, RbNode<T>))
      requires old(Valid() && Successor(t.0, t.1) && Promoting(t.0, t.1)) && Promoted(t.0, t.1)
      requires old(!t.1.red)
      ensures var above := if old(t.1.parent) == t.0 then t.1 else old(t.1.parent);
              above in nodes && (old(t.1.right) != null ==> old(t.1.right) in nodes) && ShortAt(old(t.1.right), above)
    {
      var (z, y) := t;
      assert old(BlackOk(z) && BlackOk(y) && BlackOk(y.parent));
    }

    twostate lemma PromotedReds(t: (RbNode<T>, RbNode<T>))
      requires old(Valid() && Successor(t.0, t.1) && Promoting(t.0, t.1)) && Promoted(t.0, t.1)
      ensures forall m <- nodes | m != t.1 :: RedOk(m, if old(t.1.red) then null else old(t.1.right))
    {
      var (z, y) := t;
      assert old(RedOk(y, null));
      forall m <- nodes | m != y ensures RedOk(m, if old(y.red) then null else old(y.right)) {
        assert old(RedOk(m, null));
      }
    }

    twostate lemma PromotedSelfRed(t: (RbNode<T>, RbNode<T>))
      requires old(Valid() && Successor(t.0, t.1) && Promoting(t.0, t.1)) && Promoted(t.0, t.1)
      ensures RedOk(t.1, if old(t.1.red) then null else old(t.1.right))
      ensures node != null ==> node in nodes && !node.red
    {
      var (z, y) := t;
      assert old(RedOk(z, null) && RedOk(y, null) && LocalUp(z));
    }

    twostate lemma PromotedKeeps(t: (RbNode<T>, RbNode<T>))
      requires old(Valid() && Successor(t.0, t.1) && Promoting(t.0, t.1)) && Promoted(t.0, t.1)
      ensures if old(t.1.red) then Valid()
              else Short(old(t.1.right), if old(t.1.parent) == t.0 then t.1 else old(t.1.parent))
    {
      PromotedInOrder(t);
      PromotedSpan(t);
      PromotedPositions(t);
      assert old(LocalRight(t.1));
      PromotedLocalLeft(t);
      PromotedLocalRight(t);
      PromotedSelf(t);
      PromotedLocalUp(t);
      PromotedBlacks(t);
      PromotedReds(t);
      PromotedSelfRed(t);
      if old(t.1.parent != t.0 || t.1.red) {
        PromotedSelfBlack(t);
      }
      if old(!t.1.red) {
        PromotedShort(t);
      }
    }

    // ----- Erase

    // Unhooks z; unless the node that left its place was red, child is one black node short below parent.
    method UnhookOuter(z: RbNode<T>) returns (child: RbNode?<T>, parent: RbNode?<T>, red: bool)
      requires Valid() && z in nodes && (z.left == null || z.right == null)
      modifies this, nodes
      ensures old(z.pos) < |old(order)|
      ensures nodes == old(nodes) - {z} && order == old(order)[..old(z.pos)] + old(order)[old(z.pos) + 1..]
      ensures if red then Valid() else Short(child, parent)
    {
      child := if z.left == null then z.right else z.left;
      parent := z.parent;
      red := z.red;
      SplicingOf(z, child);
      Splice(z, child);
      SplicedKeeps((z, child));
    }

    method UnhookInner(z: RbNode<T>, y: RbNode<T>) returns (child: RbNode?<T>, parent: RbNode?<T>, red: bool)
      requires Valid() && Successor(z, y)
      modifies this, nodes
      ensures old(z.pos) < |old(order)|
      ensures nodes == old(nodes) - {z} && order == old(order)[..old(z.pos)] + old(order)[old(z.pos) + 1..]
      ensures if red then Valid() else Short(child, parent)
    {
      PromotingOf(z, y);
      child, parent, red := Promote(z, y);
      PromotedKeeps((z, y));
    }

    method Recolor(child: RbNode?<T>, parent: RbNode?<T>, red: bool)
      requires if red then Valid() else Short(child, parent)
      modifies this`node, nodes`left, nodes`right, nodes`parent, nodes`lo, nodes`hi, nodes`red, nodes`bh
      ensures Valid()
    {
      if !red {
        EraseColor(child, parent);
      }
    }

    method EraseOuter(z: RbNode<T>)
      requires Valid() && z in nodes && (z.left == null || z.right == null)
      modifies this, nodes
      ensures Valid() && nodes == old(nodes) - {z}
      ensures old(z.pos) < |old(order)|
      ensures order == old(order)[..old(z.pos)] + old(order)[old(z.pos) + 1..]
    {
      var child, parent, red := UnhookOuter(z);
      Recolor(child, parent, red);
    }

    method EraseInner(z: RbNode<T>, y: RbNode<T>)
      requires Valid() && Successor(z, y)
      modifies this, nodes
      ensures Valid() && nodes == old(nodes) - {z}
      ensures old(z.pos) < |old(order)|
      ensures order == old(order)[..old(z.pos)] + old(order)[old(z.pos) + 1..]
    {
      var child, parent, red := UnhookInner(z, y);
      Recolor(child, parent, red);
    }

    method Erase(z: RbNode<T>)
      requires Valid() && z in nodes
      modifies this, nodes
      ensures Valid() && nodes == old(nodes) - {z}
      ensures old(z.pos) < |old(order)|
      ensures order == old(order)[..old(z.pos)] + old(order)[old(z.pos) + 1..]
    {
      if z.left == null || z.right == null {
        EraseOuter(z);
      } else {
        var y := FindSuccessor(z);
        EraseInner(z, y);
      }
    }

    // ----- Traversal

    method Leftmost(n: RbNode<T>) returns (m: RbNode<T>)
      requires Linked() && n in nodes
      ensures m in nodes && m.pos == n.lo
    {
      m := n;
      while m.left != null
        invariant m in nodes && m.lo == n.lo
        decreases m.hi - m.lo
      {
        assert LocalLeft(m) && LocalSpan(m);
        m := m.left;
        assert LocalSpan(m);
      }
      assert LocalLeft(m);
    }

    // The first node in sort order.
    method First() returns (n: RbNode?<T>)
      requires Linked()
      ensures n == if order == [] then null else order[0]
    {
      if node == null {
        return null;
      }
      n := Leftmost(node);
      assert LocalSpan(node) && Indexed(n);
    }

    // Climbs from n to the first ancestor that has n on its left.
    method Climb(n: RbNode<T>) returns (next: RbNode?<T>)
      requires Linked() && n in nodes
      ensures if next == null then n.hi == |order| else next in nodes && next.pos == n.hi
    {
      var m := n;
      next := m.parent;
      assert LocalUp(m);
      while next != null && m == next.right
        invariant m in nodes && m.hi == n.hi && next == m.parent && (if next == null then node == m else next in nodes)
        decreases |order| - (m.hi - m.lo)
      {
        SpanGrows(m);
        assert LocalRight(next) && LocalSpan(next) && LocalUp(next);
        m := next;
        next := m.parent;
      }
      assert LocalUp(m);
      if next != null {
        assert LocalLeft(next);
      }
    }

    method NextLinked(n: RbNode<T>) returns (next: RbNode?<T>)
      requires Linked() && n in nodes
      ensures if next == null then n.pos + 1 == |order| else next in nodes && next.pos == n.pos + 1
    {
      assert LocalSpan(n) && LocalRight(n);
      if n.right != null {
        next := Leftmost(n.right);
      } else {
        next := Climb(n);
      }
    }

    // The node after n in sort order; an unlinked node, its own parent, has none.
    method Next(n: RbNode<T>) returns (next: RbNode?<T>)
      requires Linked() && (n in nodes || n.parent == n)
      ensures n !in nodes ==> next == null
      ensures n in nodes ==> n.pos < |order| && if next == null then n.pos + 1 == |order| else n.pos + 1 < |order| && next == order[n.pos + 1]
    {
      if n.parent == n {
        if n in nodes { LinkedNotCleared(n); }
        return null;
      }
      AtPosition(n, n.pos);
      next := NextLinked(n);
      if next != null {
        AtPosition(next, n.pos + 1);
      }
    }

    lemma AtPosition(n: RbNode<T>, k: nat)
      requires InOrder() && n in nodes && n.pos == k
      ensures k < |order| && order[k] == n
    {
      assert Indexed(n);
    }

    // rb_erase leaves z's links behind; RB_CLEAR_NODE makes z its own parent, which marks it as unlinked.
    method ClearNode(z: RbNode<T>)
      requires Valid() && z !in nodes
      modifies z`parent
      ensures Valid() && z.parent == z
    {
      z.parent := z;
    }

    lemma LinkedNotCleared(n: RbNode<T>)
      requires Linked() && n in nodes
      ensures n.parent != n
    {
      PointedOnce(n);
    }

    // ----- What the local invariants say about the tree as a whole

    // The nodes below n in sort order, found by following left and right alone.
    ghost function Walk(n: RbNode?<T>): seq<RbNode<T>>
      requires Linked() && (n != null ==> n in nodes)
      reads this, nodes
      decreases if n == null then 0 else n.hi - n.lo
    {
      if n == null then [] else
      assert LocalLeft(n) && LocalRight(n) && LocalSpan(n);
      Walk(n.left) + [n] + Walk(n.right)
    }

    lemma {:induction false} WalkSpan(n: RbNode<T>)
      requires Linked() && n in nodes
      ensures n.lo <= n.hi <= |order| && Walk(n) == order[n.lo..n.hi]
      decreases n.hi - n.lo
    {
      assert LocalLeft(n) && LocalRight(n) && LocalSpan(n);
      assert Indexed(n);
      if n.left != null { WalkSpan(n.left); }
      if n.right != null { WalkSpan(n.right); }
      SplitAt(order, n.lo, n.pos, n.hi);
    }

    lemma WalkIsOrder()
      requires Linked()
      ensures (node != null ==> node in nodes) && Walk(node) == order
    {
      if node != null { WalkSpan(node); }
    }

    // Following path from n leads to an empty child at its end, and not before.
    ghost predicate LeadsOut(n: RbNode?<T>, path: seq<Side>)
      requires Linked() && (n != null ==> n in nodes)
      reads this, nodes
    {
      if n == null then path == [] else
      assert LocalLeft(n) && LocalRight(n);
      path != [] && LeadsOut(n.Child(path[0]), path[1..])
    }

    ghost function BlacksOn(n: RbNode?<T>, path: seq<Side>): nat
      requires Linked() && (n != null ==> n in nodes) && LeadsOut(n, path)
      reads this, nodes
      decreases path
    {
      if n == null then 0 else
      assert LocalLeft(n) && LocalRight(n);
      (if n.red then 0 else 1) + BlacksOn(n.Child(path[0]), path[1..])
    }

    // Every way down from n to an empty child meets the same number of black nodes.
    lemma {:induction false} EqualBlacks(n: RbNode?<T>, path: seq<Side>)
      requires Linked() && Blacks() && (n != null ==> n in nodes) && LeadsOut(n, path)
      ensures BlacksOn(n, path) == BlackHeight(n)
      decreases path
    {
      if n != null {
        assert LocalLeft(n) && LocalRight(n) && BlackOk(n);
        EqualBlacks(n.Child(path[0]), path[1..]);
      }
    }

    // No way down is longer than twice the black height, plus one below a red node.
    lemma {:induction false} ShortPaths(n: RbNode?<T>, path: seq<Side>)
      requires Valid() && (n != null ==> n in nodes) && LeadsOut(n, path)
      ensures |path| <= 2 * BlackHeight(n) + if IsRed(n) then 1 else 0
      decreases path
    {
      if n != null {
        assert LocalLeft(n) && LocalRight(n) && BlackOk(n) && RedOk(n, null);
        ShortPaths(n.Child(path[0]), path[1..]);
      }
    }

    // A subtree of black height b has at least 2^b - 1 nodes.
    lemma {:induction false} ManyNodes(n: RbNode<T>)
      requires Linked() && Blacks() && n in nodes
      ensures Pow2(BlackHeight(n)) <= n.hi - n.lo + 1
      decreases n.hi - n.lo
    {
      assert LocalLeft(n) && LocalRight(n) && LocalSpan(n) && BlackOk(n);
      if n.left != null { ManyNodes(n.left); }
      if n.right != null { ManyNodes(n.right); }
    }

    // The depth of any empty child is at most 2 log2 (|order| + 1).
    lemma LogarithmicDepth(path: seq<Side>)
      requires Valid() && LeadsOut(node, path)
      ensures Pow2((|path| + 1) / 2) <= |order| + 1
    {
      ShortPaths(node, path);
      if node != null {
        ManyNodes(node);
        Pow2Monotonic((|path| + 1) / 2, BlackHeight(node));
      }
    }
  }

  function IsRed<T>(n: RbNode?<T>): bool
    reads n
  {
    n != null && n.red
  }

  // Number of black nodes on a path from n down to an empty child, n included.
  ghost function BlackHeight<T>(n: RbNode?<T>): nat
    reads n
  {
    if n == null then 0 else if n.red then n.bh else n.bh + 1
  }

  lemma SplitAt<U>(s: seq<U>, lo: nat, pos: nat, hi: nat)
    requires lo <= pos < hi <= |s|
    ensures s[lo..hi] == s[lo..pos] + [s[pos]] + s[pos + 1..hi]
  {
  }

  ghost function Pow2(k: nat): nat {
    if k == 0 then 1 else 2 * Pow2(k - 1)
  }

  lemma {:induction false} Pow2Monotonic(a: nat, b: nat)
    requires a <= b
    ensures Pow2(a) <= Pow2(b)
  {
    if a > 0 { Pow2Monotonic(a - 1, b - 1); } else if b > 0 { Pow2Monotonic(a, b - 1); }
  }
}
