// The circular list of nd_list.h: a head and its members, linked both ways.
module NdList {
  class Node {
    // Null in a node that has been removed.
    var next: Node?
    var prev: Node?

    constructor ()
      ensures next == null && prev == null
    {
      next, prev := null, null;
    }
  }

  ghost predicate Distinct(ring: seq<Node>) {
    forall i, j | 0 <= i < j < |ring| :: ring[i] != ring[j]
  }

  // From each place of ring, whose last place is followed by its first, next leads on and prev back.
  ghost predicate Hop(ring: seq<Node>, i: nat)
    requires i < |ring|
    reads ring
  {
    ring[i].next == Succ(ring, i) && Succ(ring, i).prev == ring[i]
  }

  function Succ(ring: seq<Node>, i: nat): Node
    requires i < |ring|
  {
    if i + 1 < |ring| then ring[i + 1] else ring[0]
  }

  // The head, at place 0, and the members of its list in order.
  ghost predicate Ring(ring: seq<Node>)
    reads ring
  {
    ring != [] && Distinct(ring) && forall i {:trigger Hop(ring, i)} | 0 <= i < |ring| :: Hop(ring, i)
  }

  ghost function Inserted(ring: seq<Node>, i: nat, n: Node): (r: seq<Node>)
    requires i <= |ring|
    ensures |r| == |ring| + 1 && r[i] == n
    ensures forall j {:trigger r[j]} | 0 <= j < |r| && j != i :: r[j] == if j < i then ring[j] else ring[j - 1]
  {
    ring[..i] + [n] + ring[i..]
  }

  ghost function Deleted(ring: seq<Node>, i: nat): (r: seq<Node>)
    requires i < |ring|
    ensures |r| == |ring| - 1
    ensures forall j {:trigger r[j]} | 0 <= j < |r| :: r[j] == if j < i then ring[j] else ring[j + 1]
  {
    ring[..i] + ring[i + 1..]
  }

  // nd_list_init
  method Init(head: Node)
    modifies head
    ensures Ring([head])
  {
    head.next := head;
    head.prev := head;
    assert Hop([head], 0);
  }

  // nd_list_insert_after: n comes behind place i.
  method InsertAfter(node: Node, n: Node, ghost ring: seq<Node>, ghost i: nat)
    requires Ring(ring) && i < |ring| && ring[i] == node && n !in ring
    modifies ring, n
    ensures Ring(Inserted(ring, i + 1, n))
  {
    assert Hop(ring, i);
    n.next := node.next;
    n.prev := node;
    node.next.prev := n;
    node.next := n;
    InsertedRing((ring, i, n));
  }

  // The four link writes of an insertion behind place i make the longer ring.
  twostate lemma InsertedRing(p: (seq<Node>, nat, Node))
    requires p.1 < |p.0| && old(Ring(p.0)) && p.2 !in p.0
    requires p.2.next == Succ(p.0, p.1) && p.2.prev == p.0[p.1] && p.0[p.1].next == p.2 && Succ(p.0, p.1).prev == p.2
    requires forall m | m in p.0 :: (m != p.0[p.1] ==> m.next == old(m.next)) && (m != Succ(p.0, p.1) ==> m.prev == old(m.prev))
    ensures Ring(Inserted(p.0, p.1 + 1, p.2))
  {
    var (ring, i, n) := p;
    var r := Inserted(ring, i + 1, n);
    forall a, b | 0 <= a < b < |r| ensures r[a] != r[b] {
      assert r[a] == n || r[a] in ring;
      assert r[b] == n || r[b] in ring;
    }
    forall j | 0 <= j < |r| ensures Hop(r, j) {
      if j != i && j != i + 1 {
        var j' := if j < i then j else j - 1;
        assert old(Hop(ring, j')) && r[j] == ring[j'] && Succ(r, j) == Succ(ring, j');
        assert ring[j'] in ring && Succ(ring, j') in ring && Succ(ring, j') != Succ(ring, i);
      }
    }
  }

  // nd_list_insert_before: n comes ahead of place i; ahead of the head is the end of the list.
  method InsertBefore(node: Node, n: Node, ghost ring: seq<Node>, ghost i: nat)
    requires Ring(ring) && i < |ring| && ring[i] == node && n !in ring
    modifies ring, n
    ensures Ring(Inserted(ring, if i == 0 then |ring| else i, n))
  {
    ghost var h := if i == 0 then |ring| - 1 else i - 1;
    assert Hop(ring, h) && Succ(ring, h) == node;
    n.prev := node.prev;
    n.next := node;
    node.prev.next := n;
    node.prev := n;
    InsertedRing((ring, h, n));
  }

  // nd_list_remove of a member: the node itself is left unlinked.
  method Remove(node: Node, ghost ring: seq<Node>, ghost i: nat)
    requires Ring(ring) && 0 < i < |ring| && ring[i] == node
    modifies ring
    ensures Ring(Deleted(ring, i)) && node.next == null && node.prev == null
  {
    assert Hop(ring, i - 1) && Hop(ring, i);
    assert Succ(ring, i) in ring && ring[i - 1] in ring;
    node.prev.next := node.next;
    node.next.prev := node.prev;
    node.next := null;
    node.prev := null;
    DeletedRing((ring, i));
  }

  twostate lemma DeletedRing(p: (seq<Node>, nat))
    requires 0 < p.1 < |p.0| && old(Ring(p.0))
    requires p.0[p.1 - 1].next == Succ(p.0, p.1) && Succ(p.0, p.1).prev == p.0[p.1 - 1]
    requires forall m | m in p.0 && m != p.0[p.1] :: (m != p.0[p.1 - 1] ==> m.next == old(m.next)) && (m != Succ(p.0, p.1) ==> m.prev == old(m.prev))
    ensures Ring(Deleted(p.0, p.1))
  {
    var (ring, i) := p;
    var r := Deleted(ring, i);
    forall j | 0 <= j < |r| ensures Hop(r, j) {
      if j != i - 1 {
        var j' := if j < i then j else j + 1;
        assert old(Hop(ring, j')) && r[j] == ring[j'] && Succ(r, j) == Succ(ring, j');
        assert ring[j'] in ring && Succ(ring, j') in ring && Succ(ring, j') != Succ(ring, i);
      } else {
        assert Succ(r, j) == Succ(ring, i);
      }
    }
  }

  // nd_list_is_empty
  method IsEmpty(head: Node, ghost ring: seq<Node>) returns (r: bool)
    requires Ring(ring) && ring[0] == head
    ensures r <==> ring == [head]
  {
    assert Hop(ring, 0);
    r := head.next == head;
  }

  // A member is linked, a removed node is not.
  lemma LinkedIff(node: Node, ring: seq<Node>)
    requires Ring(ring) && node in ring
    ensures node.next != null
  {
    var i :| 0 <= i < |ring| && ring[i] == node;
    assert Hop(ring, i);
  }

  // nd_list_length
  method Length(head: Node, ghost ring: seq<Node>) returns (length: nat)
    requires Ring(ring) && ring[0] == head
    ensures length == |ring| - 1
  {
    length := 0;
    assert Hop(ring, 0);
    var node := head.next;
    while node != head
      invariant length < |ring| && node == Succ(ring, length)
      decreases |ring| - length
    {
      assert Hop(ring, length + 1);
      length := length + 1;
      node := node.next;
    }
  }
}
