// The thread lists as they are linked in memory: one ring of nodes for each list head, through the qnodes of its threads.
module Rings {
  import opened BitOps
  import opened KernelCore
  import opened NdList

  function Nodes(qnode: map<Tid, Node>, q: seq<Tid>): (r: seq<Node>)
    requires forall t | t in q :: t in qnode
    ensures |r| == |q| && forall i {:trigger r[i]} | 0 <= i < |q| :: r[i] == qnode[q[i]]
  {
    if q == [] then [] else [qnode[q[0]]] + Nodes(qnode, q[1..])
  }

  class Queues {
    var qnode: map<Tid, Node>
    // A list without a head yet is empty.
    var head: map<ListId, Node>
    // container_of
    var threadOf: map<Node, Tid>
    ghost var link: map<Tid, Link>
    ghost var lists: map<ListId, seq<Tid>>
    ghost var repr: set<Node>

    ghost function On(l: ListId): seq<Tid>
      reads this`lists
    {
      if l in lists then lists[l] else []
    }

    // The list's head and its members' qnodes, in order.
    ghost function RingOf(l: ListId): (r: seq<Node>)
      requires l in head && forall t | t in On(l) :: t in qnode
      reads this`qnode, this`head, this`lists
    {
      [head[l]] + Nodes(qnode, On(l))
    }

    ghost predicate Named(t: Tid)
      reads this`qnode, this`threadOf, this`repr
    {
      t in qnode ==> qnode[t] in threadOf && threadOf[qnode[t]] == t && qnode[t] in repr
    }

    ghost predicate Headed(l: ListId)
      reads this`head, this`threadOf, this`lists, this`repr
    {
      if l in head then head[l] !in threadOf && head[l] in repr && forall m | m in head && m != l :: head[m] != head[l] else On(l) == []
    }

    ghost predicate Members(l: ListId)
      reads this`link, this`lists
    {
      NoDup(On(l)) && forall t | t in On(l) :: t in link && link[t] == Link.On(l)
    }

    ghost predicate Member(t: Tid)
      reads this`link, this`lists
    {
      t in link && link[t].On? ==> t in On(link[t].l)
    }

    // What is known without following a pointer.
    ghost predicate Shaped()
      reads this
    {
      && link.Keys == qnode.Keys
      && (forall t {:trigger Named(t)} :: Named(t)) && (forall l {:trigger Headed(l)} :: Headed(l))
      && (forall l {:trigger Members(l)} :: Members(l)) && (forall t {:trigger Member(t)} :: Member(t))
    }

    ghost predicate Linked(l: ListId)
      reads this, repr
    {
      l in head ==> (forall t | t in On(l) :: t in qnode) && (forall n | n in RingOf(l) :: n in repr) && Ring(RingOf(l))
    }

    // A null next pointer is what an unlinked qnode has, and only that.
    ghost predicate Loose(t: Tid)
      reads this, repr
    {
      t in qnode && qnode[t] in repr && t in link && link[t] == Unlinked ==> qnode[t].next == null && qnode[t].prev == null
    }

    ghost predicate Valid()
      reads this, repr
    {
      && Shaped() && (forall l {:trigger Linked(l)} :: Linked(l)) && (forall t {:trigger Loose(t)} :: Loose(t))
    }

    lemma Place(l: ListId, t: Tid) returns (i: nat)
      requires Valid() && t in On(l)
      ensures t in qnode && l in head && Linked(l) && i < |On(l)| && On(l)[i] == t && RingOf(l)[i + 1] == qnode[t] && |RingOf(l)| == |On(l)| + 1
      ensures Minus(On(l), t) == On(l)[..i] + On(l)[i + 1..]
    {
      assert Headed(l) && Linked(l) && Members(l);
      i :| 0 <= i < |On(l)| && On(l)[i] == t;
      MinusAt(On(l), i);
    }

    // No node of list l's ring belongs to another ring, or to a thread on no list.
    ghost predicate Alone(l: ListId)
      requires l in head && Linked(l)
      reads this, repr
    {
      && (forall m {:trigger Linked(m)} | m in head && m != l && Linked(m) :: forall n | n in RingOf(m) :: n !in RingOf(l))
      && (forall t {:trigger Loose(t)} | t in qnode && t in link && link[t] == Unlinked :: qnode[t] !in RingOf(l))
    }

    lemma RingsAlone(l: ListId)
      requires Valid() && l in head
      ensures Linked(l) && Alone(l)
    {
      assert Linked(l) && Members(l) && Headed(l);
      forall m | m in head && m != l ensures Linked(m) && forall n | n in RingOf(m) :: n !in RingOf(l) {
        assert Linked(m) && Members(m) && Headed(m);
        forall i, j | 0 <= i < |RingOf(l)| && 0 <= j < |RingOf(m)| ensures RingOf(l)[i] != RingOf(m)[j] {
          if i > 0 { assert Named(On(l)[i - 1]) && On(l)[i - 1] in On(l); }
          if j > 0 { assert Named(On(m)[j - 1]) && On(m)[j - 1] in On(m); }
        }
      }
      forall t | t in qnode && link[t] == Unlinked ensures qnode[t] !in RingOf(l) {
        assert Named(t);
        forall i | 0 <= i < |RingOf(l)| ensures RingOf(l)[i] != qnode[t] {
          if i > 0 { assert Named(On(l)[i - 1]) && On(l)[i - 1] in On(l); }
        }
      }
    }

    // Only the lists and links have changed.
    twostate predicate SameNodes()
      reads this
    {
      qnode == old(qnode) && head == old(head) && threadOf == old(threadOf) && repr == old(repr)
    }

    twostate lemma RemovedShape(t: Tid)
      requires old(Shaped()) && SameNodes() && t in old(link) && old(link[t]).On? && t in old(On(link[t].l))
      requires link == old(link)[t := Unlinked] && lists == old(lists)[old(link[t].l) := Minus(old(On(link[t].l)), t)]
      ensures Shaped()
    {
      var l := old(link[t].l);
      assert old(Members(l));
      MinusMembers(old(On(l)), t);
      forall m ensures Members(m) && Headed(m) { assert old(Members(m)) && old(Headed(m)); }
      forall x ensures Member(x) && Named(x) { assert old(Member(x)) && old(Named(x)); }
    }

    // Thread t joins or leaves list l; no node but its own and those of l's ring has been written.
    twostate predicate Only(l: ListId, t: Tid)
      requires old(Linked(l)) && l in old(head) && t in old(qnode)
      reads this, repr
    {
      && SameNodes() && (forall m {:trigger On(m)} | m != l :: On(m) == old(On(m)))
      && (forall x {:trigger link[x]} | x in link && x != t :: x in old(link) && link[x] == old(link[x])) && link.Keys == old(link).Keys
      && forall n | n in repr && n !in old(RingOf(l)) && n != old(qnode[t]) :: n.next == old(n.next) && n.prev == old(n.prev)
    }

    twostate lemma OthersLinked(p: (ListId, Tid, ListId))
      requires old(Linked(p.0)) && p.0 in old(head) && p.1 in old(qnode) && p.1 in old(link)
      requires p.1 in old(On(p.0)) || old(link[p.1]) == Unlinked
      requires Only(p.0, p.1) && p.2 != p.0 && old(Linked(p.2)) && (p.2 in old(head) ==> old(Alone(p.0)) && old(Alone(p.2)))
      ensures Linked(p.2)
    {
      var (l, t, m) := p;
      if m in head {
        var r := old(RingOf(m));
        assert RingOf(m) == r;
        assert old(qnode[t]) !in r by {
          if t in old(On(l)) {
            var i :| 0 <= i < |old(On(l))| && old(On(l))[i] == t;
            assert old(RingOf(l))[i + 1] == old(qnode[t]);
          } else {
            assert old(Loose(t)) ==> old(qnode[t]) !in r;
          }
        }
        assert forall n | n in r :: n !in old(RingOf(l)) && n.next == old(n.next) && n.prev == old(n.prev);
        forall i | 0 <= i < |r| ensures Hop(r, i) { assert old(Hop(r, i)) && r[i] in r && Succ(r, i) in r; }
      }
    }

    twostate lemma OthersLoose(p: (ListId, Tid, Tid))
      requires old(Shaped()) && old(Linked(p.0)) && p.0 in old(head) && p.1 in old(qnode)
      requires Only(p.0, p.1) && p.2 != p.1 && old(Loose(p.2)) && old(Alone(p.0))
      ensures Loose(p.2)
    {
      assert old(Named(p.1)) && old(Named(p.2));
    }

    lemma Home(t: Tid)
      requires Valid() && t in link && link[t].On?
      ensures t in On(link[t].l) && link[t].l in head
    {
      assert Member(t) && Headed(link[t].l);
    }

    ghost predicate AllAlone()
      reads this, repr
    {
      forall m | m in head :: Linked(m) && Alone(m)
    }

    // What a change to list l, with thread t joining or leaving it, starts from.
    lemma Writable(l: ListId, t: Tid)
      requires Valid() && l in head && t in link
      ensures AllAlone() && Linked(l) && t in qnode && qnode[t] in repr
      ensures (forall x | x in On(l) :: x in qnode) && Ring(RingOf(l)) && (forall n | n in RingOf(l) :: n in repr) && (link[t] == Unlinked ==> qnode[t] !in RingOf(l))
    {
      hide Alone, Ring;
      assert Named(t);
      forall m | m in head ensures Linked(m) && Alone(m) { RingsAlone(m); }
      if link[t] == Unlinked { NotOn(l, t); }
    }

    lemma NotOn(l: ListId, t: Tid)
      requires l in head && Linked(l) && Alone(l) && t in qnode && t in link && link[t] == Unlinked
      ensures qnode[t] !in RingOf(l)
    {
      assert Loose(t) ==> qnode[t] !in RingOf(l);
    }

    // The rest of a removal, once the pointers have been written.
    twostate lemma RemovedValid(p: (ListId, Tid, nat))
      requires old(Valid()) && old(AllAlone()) && p.0 in old(head) && p.1 in old(link) && p.1 in old(qnode) && old(link[p.1]) == Link.On(p.0)
      requires p.1 in old(On(p.0)) && p.2 < |old(On(p.0))| && Minus(old(On(p.0)), p.1) == old(On(p.0))[..p.2] + old(On(p.0))[p.2 + 1..]
      requires old(Linked(p.0)) && Only(p.0, p.1) && qnode[p.1].next == null && qnode[p.1].prev == null
      requires link == old(link)[p.1 := Unlinked] && lists == old(lists)[p.0 := Minus(old(On(p.0)), p.1)]
      requires Ring(Deleted(old(RingOf(p.0)), p.2 + 1))
      ensures Valid()
    {
      hide Shaped, Alone, Ring, Minus;
      var (l, t, i) := p;
      RemovedShape(t);
      assert Linked(l) by { DeletedRingOf((l, t, i)); }
      forall m ensures Linked(m) {
        if m != l { if m in old(head) { OthersLinked((l, t, m)); } }
      }
      forall x ensures Loose(x) { if x != t { OthersLoose((l, t, x)); } }
    }

    twostate lemma DeletedRingOf(p: (ListId, Tid, nat))
      requires SameNodes() && p.0 in old(head) && p.2 < |old(On(p.0))| && old(Linked(p.0))
      requires On(p.0) == old(On(p.0))[..p.2] + old(On(p.0))[p.2 + 1..]
      requires Ring(Deleted(old(RingOf(p.0)), p.2 + 1))
      ensures Linked(p.0)
    {
      hide Ring;
      var (l, t, i) := p;
      var q, q' := old(On(l)), On(l);
      forall j | 0 <= j < |q'| ensures q'[j] in qnode { assert q'[j] in q; }
      assert RingOf(l) == Deleted(old(RingOf(l)), i + 1);
      forall j | 0 <= j < |RingOf(l)| ensures RingOf(l)[j] in repr { assert RingOf(l)[j] in old(RingOf(l)); }
    }

    // nd_list_remove on a thread's qnode: the list it is on is not named.
    method Remove(t: Tid)
      requires Valid() && t in link && link[t].On?
      modifies this`link, this`lists, repr
      ensures Valid() && t in qnode && qnode[t].next == null
      ensures link == old(link)[t := Unlinked] && lists == old(lists)[old(link[t].l) := Minus(old(On(link[t].l)), t)]
    {
      hide Shaped, Alone, AllAlone, Ring, Linked, Loose, Minus;
      ghost var l := link[t].l;
      Home(t);
      ghost var i := Place(l, t);
      Writable(l, t);
      NdList.Remove(qnode[t], RingOf(l), i + 1);
      link := link[t := Unlinked];
      lists := lists[l := Minus(On(l), t)];
      RemovedValid((l, t, i));
    }

    // ----- Linking in

    // The node at place i of list l, the head behind the last.
    ghost function At(l: ListId, i: nat): Node
      requires l in head && i <= |On(l)| && forall t | t in On(l) :: t in qnode
      reads this
    {
      if i < |On(l)| then qnode[On(l)[i]] else head[l]
    }

    twostate lemma InsertedShape(p: (ListId, Tid, nat))
      requires old(Shaped()) && SameNodes() && p.0 in head && p.1 in old(link) && old(link[p.1]) == Unlinked && p.2 <= |old(On(p.0))|
      requires link == old(link)[p.1 := Link.On(p.0)] && lists == old(lists)[p.0 := Insert(old(On(p.0)), p.2, p.1)]
      ensures Shaped()
    {
      var (l, t, i) := p;
      assert old(Members(l));
      InsertMembers(old(On(l)), i, t);
      forall m ensures Members(m) && Headed(m) { assert old(Members(m)) && old(Headed(m)); }
      forall x ensures Member(x) && Named(x) { assert old(Member(x)) && old(Named(x)); }
    }

    // The rest of an insertion, once the pointers have been written.
    twostate lemma InsertedValid(p: (ListId, Tid, nat))
      requires old(Valid()) && p.0 in old(head) && p.1 in old(link) && p.1 in old(qnode) && old(link[p.1]) == Unlinked && p.2 <= |old(On(p.0))|
      requires old(AllAlone()) && old(Linked(p.0)) && Only(p.0, p.1)
      requires link == old(link)[p.1 := Link.On(p.0)] && lists == old(lists)[p.0 := Insert(old(On(p.0)), p.2, p.1)]
      requires Ring(Inserted(old(RingOf(p.0)), p.2 + 1, old(qnode[p.1])))
      ensures Valid()
    {
      hide Shaped, Alone, Ring;
      var (l, t, i) := p;
      InsertedShape((l, t, i));
      assert Linked(l) by { InsertedRingOf((l, t, i)); }
      forall m ensures Linked(m) {
        if m != l { if m in old(head) { OthersLinked((l, t, m)); } }
      }
      forall x ensures Loose(x) { if x != t { OthersLoose((l, t, x)); } }
    }

    twostate lemma InsertedRingOf(p: (ListId, Tid, nat))
      requires old(Shaped()) && SameNodes() && p.0 in old(head) && p.1 in old(qnode) && p.2 <= |old(On(p.0))| && old(Linked(p.0))
      requires lists == old(lists)[p.0 := Insert(old(On(p.0)), p.2, p.1)]
      requires Ring(Inserted(old(RingOf(p.0)), p.2 + 1, old(qnode[p.1])))
      ensures Linked(p.0)
    {
      hide Ring;
      var (l, t, i) := p;
      var q, q' := old(On(l)), On(l);
      assert old(Named(t));
      forall j | 0 <= j < |q'| ensures q'[j] in qnode { assert q'[j] == t || q'[j] in q; }
      assert RingOf(l) == Inserted(old(RingOf(l)), i + 1, old(qnode[t]));
      forall j | 0 <= j < |RingOf(l)| ensures RingOf(l)[j] in repr { assert j != i + 1 ==> RingOf(l)[j] in old(RingOf(l)); }
    }

    // nd_list_insert_before on a thread's qnode, ahead of the node at place i of list l.
    method InsertBefore(node: Node, t: Tid, ghost l: ListId, ghost i: nat)
      requires Valid() && t in link && link[t] == Unlinked && l in head && Linked(l) && i <= |On(l)| && node == At(l, i)
      modifies this`link, this`lists, repr
      ensures Valid() && link == old(link)[t := Link.On(l)] && lists == old(lists)[l := Insert(old(On(l)), i, t)]
    {
      hide Shaped, Alone, AllAlone, Ring, Linked, Loose, Insert;
      Writable(l, t);
      ghost var ring, j := RingOf(l), if i < |On(l)| then i + 1 else 0;
      NdList.InsertBefore(node, qnode[t], ring, j);
      link := link[t := Link.On(l)];
      lists := lists[l := Insert(On(l), i, t)];
      InsertedValid((l, t, i));
    }

    // nd_list_insert_after the head
    method InsertFirst(t: Tid, l: ListId)
      requires Valid() && t in link && link[t] == Unlinked && l in head && Linked(l)
      modifies this`link, this`lists, repr
      ensures Valid() && link == old(link)[t := Link.On(l)] && lists == old(lists)[l := Insert(old(On(l)), 0, t)]
    {
      hide Shaped, Alone, AllAlone, Ring, Linked, Loose, Insert;
      Writable(l, t);
      NdList.InsertAfter(head[l], qnode[t], RingOf(l), 0);
      link := link[t := Link.On(l)];
      lists := lists[l := Insert(On(l), 0, t)];
      InsertedValid((l, t, 0));
    }

    // ----- Reading the lists

    lemma RingAt(l: ListId, i: nat)
      requires l in head && Linked(l) && i <= |On(l)|
      ensures At(l, i) in RingOf(l) && At(l, i).next == if i < |On(l)| then At(l, i + 1) else At(l, 0)
      ensures head[l].next == At(l, 0)
    {
      var r := RingOf(l);
      assert Hop(r, 0);
      if i < |On(l)| { assert r[i + 1] == At(l, i) && Hop(r, i + 1); }
    }

    lemma HeadApart(l: ListId, i: nat)
      requires Valid() && l in head && Linked(l) && i <= |On(l)|
      ensures At(l, i) == head[l] <==> i == |On(l)|
      ensures i < |On(l)| ==> At(l, i) in threadOf && threadOf[At(l, i)] == On(l)[i]
    {
      assert Headed(l);
      if i < |On(l)| { assert Named(On(l)[i]) && On(l)[i] in On(l); }
    }

    // nd_list_is_linked: a null next pointer means the thread is on no list.
    method IsLinked(t: Tid) returns (r: bool)
      requires Valid() && t in link
      ensures t in qnode && (r <==> qnode[t].next != null) && (r <==> link[t].On?)
    {
      assert Named(t) && Loose(t);
      if link[t].On? {
        Home(t);
        ghost var i := Place(link[t].l, t);
        RingAt(link[t].l, i);
      }
      r := qnode[t].next != null;
    }

    // nd_list_is_empty
    method IsEmpty(l: ListId) returns (r: bool)
      requires Valid()
      ensures r <==> On(l) == []
    {
      assert Headed(l) && Linked(l);
      if l !in head {
        return true;
      }
      RingAt(l, 0);
      HeadApart(l, 0);
      r := head[l].next == head[l];
    }

    // The thread of the first node.
    method First(l: ListId) returns (t: Tid)
      requires Valid() && On(l) != []
      ensures t == On(l)[0]
    {
      assert Headed(l) && Linked(l);
      RingAt(l, 0);
      HeadApart(l, 0);
      t := threadOf[head[l].next];
    }

    // One step along the list, from the node at place i; from the head to the first.
    method Follow(node: Node, ghost l: ListId, ghost i: nat) returns (next: Node)
      requires Valid() && l in head && Linked(l) && i <= |On(l)| && node == At(l, i)
      ensures next == At(l, if i < |On(l)| then i + 1 else 0)
    {
      RingAt(l, i);
      next := node.next;
    }

    // nd_list_init of a head met for the first time.
    method HeadOf(l: ListId) returns (h: Node)
      requires Valid()
      modifies this`head, this`repr
      ensures Valid() && l in head && h == head[l] && Linked(l) && fresh(repr - old(repr)) && old(repr) <= repr
      ensures link == old(link) && lists == old(lists) && forall m | m in old(head) :: m in head && head[m] == old(head[m])
    {
      assert Linked(l) && Headed(l);
      if l in head {
        return head[l];
      }
      h := new Node();
      NdList.Init(h);
      head := head[l := h];
      repr := repr + {h};
      forall m ensures Headed(m) && Members(m) && Linked(m) {
        assert old(Headed(m)) && old(Members(m)) && old(Linked(m));
        if m == l {
          assert RingOf(l) == [h];
        } else if m in head {
          SameRing(m);
        }
      }
      forall x ensures Named(x) && Member(x) && Loose(x) { assert old(Named(x)) && old(Member(x)) && old(Loose(x)); }
    }

    // Nodes added elsewhere do not touch a ring.
    twostate lemma SameRing(m: ListId)
      requires m in old(head) && m in head && head[m] == old(head[m]) && On(m) == old(On(m)) && old(Linked(m)) && old(repr) <= repr
      requires forall t | t in old(qnode) :: t in qnode && qnode[t] == old(qnode[t])
      requires forall n | n in old(repr) :: n.next == old(n.next) && n.prev == old(n.prev)
      ensures Linked(m)
    {
      var r := old(RingOf(m));
      assert RingOf(m) == r;
      forall i | 0 <= i < |r| ensures Hop(r, i) { assert old(Hop(r, i)) && r[i] in r && Succ(r, i) in r; }
    }

    // The qnode of a new thread is linked into no list.
    method Enrol(t: Tid)
      requires Valid() && t !in link
      modifies this`qnode, this`threadOf, this`link, this`repr
      ensures Valid() && fresh(repr - old(repr)) && old(repr) <= repr
      ensures link == old(link)[t := Unlinked] && lists == old(lists) && forall x | x in old(qnode) :: x in qnode && qnode[x] == old(qnode[x])
    {
      var n := new Node();
      qnode := qnode[t := n];
      threadOf := threadOf[n := t];
      link := link[t := Unlinked];
      repr := repr + {n};
      forall m ensures Headed(m) && Members(m) && Linked(m) {
        assert old(Headed(m)) && old(Members(m)) && old(Linked(m));
        if m in head { SameRing(m); }
      }
      forall x ensures Named(x) && Member(x) && Loose(x) { assert old(Named(x)) && old(Member(x)) && old(Loose(x)); }
    }

    constructor ()
      ensures Valid() && link == map[] && lists == map[] && fresh(repr)
    {
      qnode, head, threadOf, link, lists, repr := map[], map[], map[], map[], map[], {};
    }
  }
}
