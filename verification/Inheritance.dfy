// Priority inheritance: exactly when a step keeps every owner as urgent as its waiters, and that it always does when threads
// lock only while holding no mutex.
module Inheritance {
  import opened BitOps
  import opened KernelCore
  import opened Ipc

  ghost predicate Locking(c: Tcb) { c.stat == Block && c.pc.Inside? && c.pc.call.LockMutex? }

  // Tickets are those handed out so far. If mutexes are to be held alone, no thread holds two, and one waiting for a
  // mutex holds none.
  ghost predicate Single(s: State, t: Tid, alone: bool) {
    && (alone ==> |Taken(s, t)| <= 1 && (t in s.k.tcb && Locking(T(s.k, t)) ==> Taken(s, t) == []))
    && (t in s.k.tcb ==> T(s.k, t).ticket < s.k.tickets)
  }

  // More urgent first, and in order of arrival among equals.
  ghost predicate Before(k: Core, x: Tid, y: Tid) {
    T(k, x).prio < T(k, y).prio || (T(k, x).prio == T(k, y).prio && T(k, x).ticket < T(k, y).ticket)
  }

  ghost predicate Sorted(k: Core, q: seq<Tid>) {
    forall i, j | 0 <= i < j < |q| :: Before(k, q[i], q[j])
  }

  ghost predicate Queued(s: State, id: nat) { Sorted(s.k, Q(s.k, MutexList(id))) }

  // The owner is at least as urgent as every waiter.
  ghost predicate Lent(s: State, id: nat) {
    MutexOf(s, id).owner.Thread? ==>
      forall w | w in Q(s.k, MutexList(id)) :: T(s.k, MutexOf(s, id).owner.t).prio <= T(s.k, w).prio
  }

  ghost predicate InheritBut(s: State, id: nat, alone: bool) {
    && (forall t {:trigger Single(s, t, alone)} :: Single(s, t, alone))
    && (forall m {:trigger Queued(s, m)} :: Queued(s, m))
    && (forall m {:trigger Lent(s, m)} :: m != id ==> Lent(s, m))
  }

  ghost predicate Inherits(s: State, alone: bool) {
    && (forall t {:trigger Single(s, t, alone)} :: Single(s, t, alone))
    && (forall m {:trigger Queued(s, m)} :: Queued(s, m))
    && (forall m {:trigger Lent(s, m)} :: Lent(s, m))
  }

  // A call to lock is made only by a thread that holds no mutex.
  predicate Disciplined(s: State, op: Op) { op.OpLock? ==> Taken(s, s.k.cur) == [] }

  // ----- Changes that do not concern mutexes

  // Priorities and tickets are the same, and mutex waiters at most leave.
  ghost predicate Same(c: Tcb, d: Tcb) {
    d.prio == c.prio && d.ticket == c.ticket && (Locking(d) ==> Locking(c))
  }

  lemma SortedMinus(k: Core, q: seq<Tid>, t: Tid)
    requires Sorted(k, q) && NoDup(q) && t in q
    ensures Sorted(k, Minus(q, t))
  {
    var i :| 0 <= i < |q| && q[i] == t;
    MinusAt(q, i);
    var r := Minus(q, t);
    forall a, b | 0 <= a < b < |r| ensures Before(k, r[a], r[b]) {
      assert r[a] == q[if a < i then a else a + 1] && r[b] == q[if b < i then b else b + 1];
    }
  }

  lemma SortedSame(k: Core, k': Core, q: seq<Tid>)
    requires Sorted(k, q) && forall x | x in q :: T(k', x).prio == T(k, x).prio && T(k', x).ticket == T(k, x).ticket
    ensures Sorted(k', q)
  {
    forall i, j | 0 <= i < j < |q| ensures Before(k', q[i], q[j]) {
      assert Before(k, q[i], q[j]) && q[i] in q && q[j] in q;
    }
  }

  lemma SideInherits(s: State, k: Core, alone: bool)
    requires Inherits(s, alone) && SameSide(s.k, k)
    ensures Inherits(s.(k := k), alone)
  {
    var s' := s.(k := k);
    assert forall x :: Same(T(s.k, x), T(k, x)) by {
      forall x ensures Same(T(s.k, x), T(k, x)) { assert Alike(T(s.k, x), T(k, x)); }
    }
    forall t ensures Single(s', t, alone) { assert Single(s, t, alone); }
    forall m ensures Queued(s', m) && Lent(s', m) {
      assert Queued(s, m) && Lent(s, m) && Q(k, MutexList(m)) == Q(s.k, MutexList(m));
      SortedSame(s.k, k, Q(k, MutexList(m)));
    }
  }

  lemma RescheduledInherits(s: State, alone: bool)
    requires Good(s) && Inherits(s, alone)
    ensures Inherits(Rescheduled(s), alone)
  {
    hide Whole, Inherits, SameSide, MutexesGood, ObjectsGood;
    ScheduleOk(s.k);
    SideInherits(s, Schedule(s.k), alone);
  }

  // One thread changes, off the wait lists.
  lemma OneInherits(s: State, k: Core, t: Tid, alone: bool)
    requires Inherits(s, alone) && OnlyReady(s.k, k, t) && Same(T(s.k, t), T(k, t))
    ensures Inherits(s.(k := k), alone)
  {
    var s' := s.(k := k);
    assert forall x :: Same(T(s.k, x), T(k, x));
    forall x ensures Single(s', x, alone) { assert Single(s, x, alone); }
    forall m ensures Queued(s', m) && Lent(s', m) {
      assert Queued(s, m) && Lent(s, m) && Q(k, MutexList(m)) == Q(s.k, MutexList(m));
      SortedSame(s.k, k, Q(k, MutexList(m)));
    }
  }

  // A thread leaves its wait list.
  lemma LeftInherits(s: State, k: Core, t: Tid, id: nat, alone: bool)
    requires Whole(s.k) && InheritBut(s, id, alone) && Leaves(s.k, k, t)
    ensures InheritBut(s.(k := k), id, alone) && (Lent(s, id) ==> Lent(s.(k := k), id))
  {
    hide Linked, BitsOk, ThreadOk;
    var s' := s.(k := k);
    assert forall x :: Same(T(s.k, x), T(k, x));
    forall x ensures Single(s', x, alone) { assert Single(s, x, alone); }
    forall m ensures Queued(s', m) && (Lent(s, m) ==> Lent(s', m)) {
      assert Queued(s, m);
      LeftWaiters(s.k, k, t, MutexList(m));
      LeftSorted(s.k, k, t, m);
    }
    forall m | m != id ensures Lent(s', m) { assert Lent(s, m); }
  }

  lemma LeftSorted(k: Core, k': Core, t: Tid, m: nat)
    requires Whole(k) && Leaves(k, k', t) && Sorted(k, Q(k, MutexList(m)))
    ensures Sorted(k', Q(k', MutexList(m)))
  {
    var q := Q(k, MutexList(m));
    assert ListOk(k, MutexList(m)) && NodeOk(k, t);
    assert Q(k', MutexList(m)) == if T(k, t).qnode == On(MutexList(m)) then Minus(q, t) else q;
    if T(k, t).qnode == On(MutexList(m)) { SortedMinus(k, q, t); }
    SortedSame(k, k', Q(k', MutexList(m)));
  }

  lemma NoneBut(s: State, id: nat, alone: bool)
    requires Inherits(s, alone)
    ensures InheritBut(s, id, alone)
  {
  }

  lemma AllOf(s: State, id: nat, alone: bool)
    requires InheritBut(s, id, alone) && Lent(s, id)
    ensures Inherits(s, alone)
  {
  }

  lemma AwakenInherits(s: State, t: Tid, e: Ending, alone: bool)
    requires Good(s) && Inherits(s, alone) && t in s.k.tcb && T(s.k, t).stat == Block
    ensures Inherits(s.(k := Awaken(s.k, t, e)), alone)
  {
    hide Whole, MutexesGood, ObjectsGood, InheritBut;
    AwakenOk(s.k, t, e);
    NoneBut(s, 0, alone);
    assert Lent(s, 0);
    LeftInherits(s, Awaken(s.k, t, e), t, 0, alone);
    AllOf(s.(k := Awaken(s.k, t, e)), 0, alone);
  }

  // ----- Joining a wait list

  // The place found is behind everyone at least as urgent and ahead of the rest.
  lemma {:induction false} WaitPosSplits(k: Core, q: seq<Tid>, prio: nat)
    requires Sorted(k, q)
    ensures var i := WaitPos(k, q, prio);
      (forall j | 0 <= j < i :: T(k, q[j]).prio <= prio) && (forall j | i <= j < |q| :: T(k, q[j]).prio > prio)
  {
    if q != [] && T(k, q[0]).prio <= prio {
      assert Sorted(k, q[1..]) by {
        forall i, j | 0 <= i < j < |q[1..]| ensures Before(k, q[1..][i], q[1..][j]) { assert Before(k, q[i + 1], q[j + 1]); }
      }
      WaitPosSplits(k, q[1..], prio);
      forall j | 0 <= j < WaitPos(k, q, prio) ensures T(k, q[j]).prio <= prio {
        assert j > 0 ==> q[j] == q[1..][j - 1];
      }
      forall j | WaitPos(k, q, prio) <= j < |q| ensures T(k, q[j]).prio > prio {
        assert q[j] == q[1..][j - 1];
      }
    } else if q != [] {
      forall j | 0 <= j < |q| ensures T(k, q[j]).prio > prio {
        assert j > 0 ==> Before(k, q[0], q[j]);
      }
    }
  }

  lemma InsertSorted(k: Core, k': Core, q: seq<Tid>, t: Tid)
    requires Sorted(k, q) && (forall x | x in q :: T(k', x).prio == T(k, x).prio && T(k', x).ticket == T(k, x).ticket && T(k, x).ticket < T(k', t).ticket)
    ensures Sorted(k', Insert(q, WaitPos(k, q, T(k', t).prio), t))
  {
    hide Sorted;
    var i := WaitPos(k, q, T(k', t).prio);
    WaitPosSplits(k, q, T(k', t).prio);
    SortedSame(k, k', q);
    forall j | 0 <= j < i ensures Before(k', q[j], t) { assert q[j] in q; }
    forall j | i <= j < |q| ensures Before(k', t, q[j]) { assert q[j] in q; }
    InsertBetween(k', q, i, t);
  }

  lemma InsertBetween(k: Core, q: seq<Tid>, i: nat, t: Tid)
    requires Sorted(k, q) && i <= |q|
    requires (forall j | 0 <= j < i :: Before(k, q[j], t)) && (forall j | i <= j < |q| :: Before(k, t, q[j]))
    ensures Sorted(k, Insert(q, i, t))
  {
    hide Before;
    var r := Insert(q, i, t);
    forall a, b | 0 <= a < b < |r| ensures Before(k, r[a], r[b]) {
      if b < i {
        assert r[a] == q[a] && r[b] == q[b];
      } else if b == i {
        assert r[a] == q[a] && r[b] == t;
      } else if a < i {
        assert r[a] == q[a] && r[b] == q[b - 1];
      } else if a == i {
        assert r[a] == t && r[b] == q[b - 1];
      } else {
        assert r[a] == q[a - 1] && r[b] == q[b - 1];
      }
    }
  }

  // The current thread joins a wait list; on a mutex's, its owner is already as urgent.
  lemma PendInherits(s: State, call: Call, alone: bool)
    requires Good(s) && Inherits(s, alone) && MayWait(s, call)
    requires call.LockMutex? ==> (alone ==> Taken(s, s.k.cur) == []) && MutexOf(s, call.id).owner.Thread? && T(s.k, MutexOf(s, call.id).owner.t).prio <= Cur(s).prio
    ensures Inherits(s.(k := Pend(s.k, call)), alone)
  {
    hide MutexesGood, ObjectsGood, Linked, BitsOk, ThreadOk;
    PendOk(s.k, call);
    var k, t := Pend(s.k, call), s.k.cur;
    var s' := s.(k := k);
    forall x ensures Single(s', x, alone) {
      assert Single(s, x, alone);
      assert x != t ==> T(k, x) == T(s.k, x);
    }
    forall m ensures Queued(s', m) && Lent(s', m) {
      assert Queued(s, m) && Lent(s, m);
      PendQueued(s, call, m, alone);
    }
  }

  lemma PendQueued(s: State, call: Call, m: nat, alone: bool)
    requires Whole(s.k) && MayWait(s, call) && Pended(s.k, Pend(s.k, call), call) && Queued(s, m) && Lent(s, m)
    requires forall t {:trigger Single(s, t, alone)} :: Single(s, t, alone)
    requires call.LockMutex? && call.id == m ==> MutexOf(s, m).owner.Thread? && T(s.k, MutexOf(s, m).owner.t).prio <= Cur(s).prio
    ensures Queued(s.(k := Pend(s.k, call)), m) && Lent(s.(k := Pend(s.k, call)), m)
  {
    hide Linked, BitsOk, ThreadOk, Pend;
    var k, t, q := Pend(s.k, call), s.k.cur, Q(s.k, MutexList(m));
    NotWaiting(s.k, t, MutexList(m));
    assert forall x | x in q :: T(k, x) == T(s.k, x);
    if WaitList(call) == MutexList(m) {
      forall x | x in q ensures T(s.k, x).ticket < s.k.tickets { OnWait(s.k, x, MutexList(m)); assert Single(s, x, alone); }
      InsertSorted(s.k, k, q, t);
      InsertMembers(q, WaitPos(s.k, q, Cur(s).prio), t) by { WaitersOnce(s.k, MutexList(m)); }
    } else {
      assert Q(k, MutexList(m)) == q;
      SortedSame(s.k, k, q);
    }
  }

  lemma WaitInherits(s: State, call: Call, alone: bool)
    requires Good(s) && Inherits(s, alone) && MayWait(s, call)
    requires call.LockMutex? ==> (alone ==> Taken(s, s.k.cur) == []) && MutexOf(s, call.id).owner.Thread? && T(s.k, MutexOf(s, call.id).owner.t).prio <= Cur(s).prio
    ensures Inherits(Wait(s, call), alone)
  {
    hide Whole, MutexesGood, ObjectsGood, Inherits;
    PendGood(s, call);
    PendInherits(s, call, alone);
    RescheduledInherits(s.(k := Pend(s.k, call)), alone);
  }

  // ----- What a lock or an unlock can break

  // Locking id finds its owner less urgent than the caller.
  ghost predicate Raises(s: State, id: nat) {
    MutexOf(s, id).owner.Thread? && MutexOf(s, id).owner.t != s.k.cur && T(s.k, MutexOf(s, id).owner.t).prio > Cur(s).prio
  }

  // The owner raised waits for m itself, and the owner of m is less urgent than the caller.
  ghost predicate LendFails(s: State, id: nat, m: nat) {
    && Raises(s, id) && MutexOf(s, id).owner.t in Q(s.k, MutexList(m))
    && MutexOf(s, m).owner.Thread? && T(s.k, MutexOf(s, m).owner.t).prio > Cur(s).prio
  }

  // At priority p, thread o would stand ahead of the thread at place i.
  ghost predicate Overtakes(k: Core, q: seq<Tid>, i: nat, o: Tid, p: nat)
    requires i < |q|
  {
    !(T(k, q[i]).prio < p || (T(k, q[i]).prio == p && T(k, q[i]).ticket < T(k, o).ticket))
  }

  // The owner raised waits for m behind a thread it should now stand ahead of.
  ghost predicate OrderFails(s: State, id: nat, m: nat) {
    && Raises(s, id)
    && var (o, q) := (MutexOf(s, id).owner.t, Q(s.k, MutexList(m)));
       exists i, j | 0 <= i < j < |q| :: q[j] == o && Overtakes(s.k, q, i, o, Cur(s).prio)
  }

  // Giving up id leaves the caller less urgent than a waiter of m, which it still holds.
  ghost predicate FallFails(s: State, id: nat, m: nat) {
    && MutexOf(s, id).owner == Thread(s.k.cur) && m in Taken(s, s.k.cur) && m != id
    && exists w :: w in Q(s.k, MutexList(m)) && Outranks(s, id, w)
  }

  ghost predicate LockFails(s: State, id: nat, m: nat) { LendFails(s, id, m) || OrderFails(s, id, m) }

  // Exactly the steps after which a mutex has an owner less urgent than a waiter, or a wait list out of order.
  ghost predicate Harms(s: State, op: Op) {
    match op
    case OpLock(id, _) => exists m :: LockFails(s, id, m)
    case OpUnlock(id) => exists m :: FallFails(s, id, m)
    case _ => false
  }

  // Mutex m sees the same owner and waiters, at the same priorities.
  lemma SameMutex(s: State, s': State, m: nat)
    requires MutexOf(s', m).owner == MutexOf(s, m).owner && Q(s'.k, MutexList(m)) == Q(s.k, MutexList(m))
    requires forall x :: T(s'.k, x).prio == T(s.k, x).prio
    requires forall x | x in Q(s.k, MutexList(m)) :: T(s'.k, x).ticket == T(s.k, x).ticket
    ensures (Lent(s', m) <==> Lent(s, m)) && (Queued(s', m) <==> Queued(s, m))
  {
    var q := Q(s.k, MutexList(m));
    if Queued(s, m) { SortedSame(s.k, s'.k, q); }
    if Queued(s', m) { SortedSame(s'.k, s.k, q); }
  }

  lemma SideMutex(s: State, k: Core, m: nat)
    requires SameSide(s.k, k)
    ensures (Lent(s.(k := k), m) <==> Lent(s, m)) && (Queued(s.(k := k), m) <==> Queued(s, m))
  {
    assert Q(k, MutexList(m)) == Q(s.k, MutexList(m));
    forall x ensures T(k, x).prio == T(s.k, x).prio && T(k, x).ticket == T(s.k, x).ticket { assert Alike(T(s.k, x), T(k, x)); }
    SameMutex(s, s.(k := k), m);
  }

  // No thread waits for a mutex it owns.
  lemma OwnerNotWaiting(s: State, id: nat, o: Tid)
    requires Good(s) && MutexOf(s, id).owner == Thread(o)
    ensures o !in Q(s.k, MutexList(id)) && id in Taken(s, o) && o in s.k.tcb
  {
    hide Whole;
    assert MutexGood(s, id) && TakenGood(s, o) && LockGood(s, o);
    if o in Q(s.k, MutexList(id)) { OnWait(s.k, o, MutexList(id)); }
  }

  // What the boost does to each mutex.
  lemma BoostExact(s: State, id: nat, o: Tid, m: nat, alone: bool)
    requires Good(s) && Inherits(s, alone) && MutexOf(s, id).owner == Thread(o) && o != s.k.cur
    ensures var s' := Boost(s, id, o);
      && (Lent(s', m) <==> !LendFails(s, id, m)) && (Queued(s', m) <==> !OrderFails(s, id, m))
      && T(s'.k, o).prio <= Cur(s).prio
  {
    hide Whole, ObjectsGood, MutexesGood, AddHead, ReadyRemove;
    BoostGood(s, id, o);
    var s', q := Boost(s, id, o), Q(s.k, MutexList(m));
    assert Queued(s, m) && Lent(s, m);
    if T(s.k, o).prio > Cur(s).prio {
      BoostedPrio(s.k, o, Cur(s).prio);
      BoostKept(s, id, o);
      assert Q(s'.k, MutexList(m)) == q && MutexOf(s', m).owner == MutexOf(s, m).owner;
      BoostLent(s, s', id, o, m);
      BoostQueued(s, s', id, o, m);
    }
  }

  // Mutexes keep their owners, threads their tickets, and every thread but o its priority.
  ghost predicate RaisedOnly(s: State, s': State, o: Tid) {
    && (forall m {:trigger MutexOf(s', m)} :: MutexOf(s', m).owner == MutexOf(s, m).owner)
    && (forall x {:trigger T(s'.k, x)} :: T(s'.k, x).ticket == T(s.k, x).ticket && (x != o ==> T(s'.k, x).prio == T(s.k, x).prio))
  }

  lemma BoostKept(s: State, id: nat, o: Tid)
    requires Repriced(s.k, Boost(s, id, o).k, o)
    ensures RaisedOnly(s, Boost(s, id, o), o)
  {
    hide ChangePrio;
    assert forall x :: x != o ==> T(Boost(s, id, o).k, x) == T(s.k, x);
  }

  lemma BoostLent(s: State, s': State, id: nat, o: Tid, m: nat)
    requires Good(s) && MutexOf(s, id).owner == Thread(o) && Raises(s, id) && RaisedOnly(s, s', o) && T(s'.k, o).prio == Cur(s).prio
    requires Q(s'.k, MutexList(m)) == Q(s.k, MutexList(m)) && Lent(s, m)
    ensures Lent(s', m) <==> !LendFails(s, id, m)
  {
    hide Good;
    var q := Q(s.k, MutexList(m));
    if MutexOf(s, m).owner.Thread? {
      var p := MutexOf(s, m).owner.t;
      OwnerNotWaiting(s, m, p);
      assert MutexOf(s', m).owner == Thread(p);
      if o in q {
        assert T(s'.k, p).prio == T(s.k, p).prio;
        if T(s.k, p).prio <= Cur(s).prio {
          forall w | w in q ensures T(s'.k, p).prio <= T(s'.k, w).prio { assert w != o ==> T(s'.k, w).prio == T(s.k, w).prio; }
        }
      } else {
        assert T(s'.k, p).prio <= T(s.k, p).prio;
        forall w | w in q ensures T(s'.k, p).prio <= T(s'.k, w).prio { assert T(s'.k, w).prio == T(s.k, w).prio; }
      }
    } else {
      assert !MutexOf(s', m).owner.Thread?;
    }
  }

  lemma BoostQueued(s: State, s': State, id: nat, o: Tid, m: nat)
    requires Whole(s.k) && MutexOf(s, id).owner == Thread(o) && Raises(s, id) && RaisedOnly(s, s', o) && T(s'.k, o).prio == Cur(s).prio
    requires Q(s'.k, MutexList(m)) == Q(s.k, MutexList(m)) && Queued(s, m)
    ensures Queued(s', m) <==> !OrderFails(s, id, m)
  {
    hide Whole;
    var q, p := Q(s.k, MutexList(m)), Cur(s).prio;
    WaitersOnce(s.k, MutexList(m));
    if OrderFails(s, id, m) {
      var i, j :| 0 <= i < j < |q| && q[j] == o && Overtakes(s.k, q, i, o, p);
      assert T(s'.k, q[i]).ticket == T(s.k, q[i]).ticket && T(s'.k, o).ticket == T(s.k, o).ticket;
      assert !Before(s'.k, q[i], q[j]);
    } else {
      forall i, j | 0 <= i < j < |q| ensures Before(s'.k, q[i], q[j]) {
        assert Before(s.k, q[i], q[j]);
        assert T(s'.k, q[i]).ticket == T(s.k, q[i]).ticket && T(s'.k, q[j]).ticket == T(s.k, q[j]).ticket;
        assert q[j] == o ==> !Overtakes(s.k, q, i, o, p);
      }
    }
  }

  lemma BoostSingle(s: State, id: nat, o: Tid, t: Tid, alone: bool)
    requires Single(s, t, alone) && Repriced(s.k, Boost(s, id, o).k, o)
    ensures Single(Boost(s, id, o), t, alone)
  {
    hide ChangePrio;
    assert t != o ==> T(Boost(s, id, o).k, t) == T(s.k, t);
  }

  // The wait behind a boost: mutex id stays in order and lent, the others see nothing of it.
  lemma WaitExact(s: State, id: nat, timeout: Timeout, m: nat, alone: bool)
    requires Good(s) && MayWait(s, LockMutex(id, timeout)) && Queued(s, id) && Lent(s, id)
    requires MutexOf(s, id).owner.Thread? && T(s.k, MutexOf(s, id).owner.t).prio <= Cur(s).prio && (alone ==> Taken(s, s.k.cur) == [])
    requires forall t {:trigger Single(s, t, alone)} :: Single(s, t, alone)
    ensures var s' := Wait(s, LockMutex(id, timeout));
      && (forall t {:trigger Single(s', t, alone)} :: Single(s', t, alone))
      && (Lent(s', m) <==> m == id || Lent(s, m)) && (Queued(s', m) <==> m == id || Queued(s, m))
  {
    hide Whole, MutexesGood, ObjectsGood, Schedule, Pend, Pended, SameSide, Lent, Queued, Single;
    var call := LockMutex(id, timeout);
    PendOk(s.k, call);
    var s1 := s.(k := Pend(s.k, call));
    ScheduleOk(s1.k);
    PendSingle(s, call, alone);
    if m == id {
      PendQueued(s, call, m, alone);
    } else {
      PendElsewhere(s, call, m);
    }
    SideMutex(s1, Schedule(s1.k), m);
    SideSingle(s1, Schedule(s1.k), alone);
  }

  lemma PendElsewhere(s: State, call: Call, m: nat)
    requires Whole(s.k) && MayWait(s, call) && Pended(s.k, Pend(s.k, call), call) && WaitList(call) != MutexList(m)
    ensures var s' := s.(k := Pend(s.k, call)); (Lent(s', m) <==> Lent(s, m)) && (Queued(s', m) <==> Queued(s, m))
  {
    hide Whole, Pend;
    var k := Pend(s.k, call);
    NotWaiting(s.k, s.k.cur, MutexList(m));
    assert Q(k, MutexList(m)) == Q(s.k, MutexList(m));
    forall x ensures T(k, x).prio == T(s.k, x).prio { assert x != s.k.cur ==> T(k, x) == T(s.k, x); }
    forall x | x in Q(s.k, MutexList(m)) ensures T(k, x).ticket == T(s.k, x).ticket { assert x != s.k.cur && T(k, x) == T(s.k, x); }
    SameMutex(s, s.(k := k), m);
  }

  lemma SideSingle(s: State, k: Core, alone: bool)
    requires SameSide(s.k, k) && forall t {:trigger Single(s, t, alone)} :: Single(s, t, alone)
    ensures var s' := s.(k := k); forall t {:trigger Single(s', t, alone)} :: Single(s', t, alone)
  {
    var s' := s.(k := k);
    forall t ensures Single(s', t, alone) { assert Single(s, t, alone) && Alike(T(s.k, t), T(k, t)); }
  }

  lemma PendSingle(s: State, call: Call, alone: bool)
    requires MayWait(s, call) && Pended(s.k, Pend(s.k, call), call) && (alone && call.LockMutex? ==> Taken(s, s.k.cur) == [])
    requires forall t {:trigger Single(s, t, alone)} :: Single(s, t, alone)
    ensures var s' := s.(k := Pend(s.k, call)); forall t {:trigger Single(s', t, alone)} :: Single(s', t, alone)
  {
    hide Pend;
    var s' := s.(k := Pend(s.k, call));
    forall t ensures Single(s', t, alone) {
      assert Single(s, t, alone);
      assert t != s.k.cur ==> T(s'.k, t) == T(s.k, t);
    }
  }

  lemma TakeInherits(s: State, id: nat, t: Tid, alone: bool)
    requires Whole(s.k) && InheritBut(s, id, alone) && (alone ==> Taken(s, t) == []) && (t in s.k.tcb ==> T(s.k, t).stat != Block)
    requires forall w | w in Q(s.k, MutexList(id)) :: T(s.k, t).prio <= T(s.k, w).prio
    ensures Inherits(Take(s, id, t), alone)
  {
    hide Whole;
    var s' := Take(s, id, t);
    forall x ensures Single(s', x, alone) { assert Single(s, x, alone); }
    forall m ensures Queued(s', m) && Lent(s', m) {
      assert Queued(s, m) && (m != id ==> Lent(s, m));
    }
  }

  // A lock with the owner found: what becomes of each mutex.
  lemma LockExact(s: State, id: nat, timeout: Timeout, m: nat, alone: bool)
    requires Sound(s) && Inherits(s, alone) && MayCall(s, timeout) && Cur(s).pc == Outside
    requires MutexOf(s, id).owner.Thread? && MutexOf(s, id).owner.t != s.k.cur && (alone ==> Taken(s, s.k.cur) == [])
    ensures var s' := MutexLock(s, id, timeout).0;
      && (forall t {:trigger Single(s', t, alone)} :: Single(s', t, alone))
      && (Lent(s', m) <==> !LendFails(s, id, m)) && (Queued(s', m) <==> !OrderFails(s, id, m))
  {
    hide Whole, MutexesGood, ObjectsGood, Boost, Wait, Urgent, Single, LendFails, OrderFails, Lent, Queued;
    CallingRuns(s);
    var o := MutexOf(s, id).owner.t;
    var s1 := Boost(s, id, o);
    BoostSound(s, id, o);
    BoostKeeps(s, id, o);
    forall t ensures Single(s1, t, alone) { assert Single(s, t, alone); BoostSingle(s, id, o, t, alone); }
    BoostExact(s, id, o, m, alone);
    if !timeout.NoWait? {
      BoostExact(s, id, o, id, alone);
      OwnListUnharmed(s, id, o);
      assert Taken(s1, s.k.cur) == Taken(s, s.k.cur) by { BoostTaken(s, id, o); }
      WaitExact(s1, id, timeout, m, alone);
    }
  }

  lemma OwnListUnharmed(s: State, id: nat, o: Tid)
    requires Good(s) && MutexOf(s, id).owner == Thread(o)
    ensures !LendFails(s, id, id) && !OrderFails(s, id, id)
  {
    hide Good;
    OwnerNotWaiting(s, id, o);
  }

  // A lock keeps inheritance exactly if it does no harm; with one mutex a thread it never does.
  lemma LockInherits(s: State, id: nat, timeout: Timeout, alone: bool)
    requires Sound(s) && Inherits(s, alone) && MayCall(s, timeout) && Cur(s).pc == Outside && (alone ==> Taken(s, s.k.cur) == [])
    ensures Inherits(MutexLock(s, id, timeout).0, alone) <==> !Harms(s, OpLock(id, timeout))
  {
    hide Whole, MutexesGood, ObjectsGood, Boost, Wait, LendFails, OrderFails, Lent, Queued, Single;
    CallingRuns(s);
    var s' := MutexLock(s, id, timeout).0;
    match MutexOf(s, id).owner {
      case None =>
        NoneBut(s, id, alone);
        NoWaiters(s, id);
        TakeInherits(s, id, s.k.cur, alone);
        NoRaise(s, id);
      case Thread(o) =>
        if o == s.k.cur {
          NoRaise(s, id);
        } else {
          LockExact(s, id, timeout, id, alone);
          forall m ensures Lent(s', m) && Queued(s', m) <==> !LockFails(s, id, m) { LockExact(s, id, timeout, m, alone); }
        }
    }
  }

  lemma NoRaise(s: State, id: nat)
    requires MutexOf(s, id).owner == None || MutexOf(s, id).owner == Thread(s.k.cur)
    ensures forall m :: !LockFails(s, id, m)
  {
  }

  lemma BoostTaken(s: State, id: nat, o: Tid)
    ensures Boost(s, id, o).taken == s.taken
  {
  }

  lemma NoWaiters(s: State, id: nat)
    requires MutexesGood(s) && MutexOf(s, id).owner == None
    ensures Q(s.k, MutexList(id)) == []
  {
    assert MutexGood(s, id);
  }

  // ----- Unlocking

  // After the caller gave up id, each other mutex it holds is lent exactly if its new priority suffices.
  lemma GiveUpExact(s: State, id: nat, m: nat, alone: bool)
    requires Sound(s) && Inherits(s, alone) && Cur(s).pc == Outside && Cur(s).stat == Running && MutexOf(s, id).owner == Thread(s.k.cur)
    ensures var s' := GiveUp(s, id);
      && (forall t {:trigger Single(s', t, alone)} :: Single(s', t, alone)) && Queued(s', m)
      && (m != id ==> (Lent(s', m) <==> !FallFails(s, id, m))) && (forall x :: x != s.k.cur ==> T(s'.k, x) == T(s.k, x))
  {
    hide Whole, ObjectsGood, Released;
    CallingRuns(s);
    GiveUpReleased(s, id);
    var s', t := GiveUp(s, id), s.k.cur;
    assert forall x :: x != t ==> T(s'.k, x) == T(s.k, x);
    forall x ensures Single(s', x, alone) {
      assert Single(s, x, alone);
      assert x != t ==> T(s'.k, x) == T(s.k, x);
    }
    var s1 := s.(taken := s.taken[t := Minus(Taken(s, t), id)]);
    LeastSame(s, s1, Cur(s).init, Taken(s1, t));
    assert Queued(s, m) && Lent(s, m) && Q(s'.k, MutexList(m)) == Q(s.k, MutexList(m));
    NotWaiting(s.k, t, MutexList(m));
    assert forall x | x in Q(s.k, MutexList(m)) :: T(s'.k, x) == T(s.k, x);
    SortedSame(s.k, s'.k, Q(s.k, MutexList(m)));
    if m != id {
      HeldElsewhere(s, m);
      assert MutexOf(s', m).owner == MutexOf(s, m).owner;
      forall w ensures T(s.k, w).prio < T(s'.k, t).prio <==> Outranks(s, id, w) { FallenTo(s, id, w); }
    }
  }

  lemma HeldElsewhere(s: State, m: nat)
    requires MutexesGood(s)
    ensures m in Taken(s, s.k.cur) <==> MutexOf(s, m).owner == Thread(s.k.cur)
  {
    assert TakenGood(s, s.k.cur) && MutexGood(s, m);
  }

  lemma FreeExact(s: State, id: nat, m: nat, alone: bool)
    requires (forall t {:trigger Single(s, t, alone)} :: Single(s, t, alone)) && Queued(s, m)
    ensures var s' := s.(mutexes := s.mutexes[id := Mutex(None, PRIOS)]);
      (forall t {:trigger Single(s', t, alone)} :: Single(s', t, alone)) && Queued(s', m) && (Lent(s', m) <==> m == id || Lent(s, m))
  {
    var s' := s.(mutexes := s.mutexes[id := Mutex(None, PRIOS)]);
    forall x ensures Single(s', x, alone) { assert Single(s, x, alone); }
  }

  // The first waiter takes over: it is at least as urgent as those left.
  lemma HandOverExact(s: State, id: nat, m: nat, alone: bool)
    requires Whole(s.k) && Q(s.k, MutexList(id)) != [] && Queued(s, id) && Queued(s, m)
    requires forall t {:trigger Single(s, t, alone)} :: Single(s, t, alone)
    ensures var s' := Take(WakeHead(s, MutexList(id)), id, Q(s.k, MutexList(id))[0]);
      (forall t {:trigger Single(s', t, alone)} :: Single(s', t, alone)) && Queued(s', m) && (Lent(s', m) <==> m == id || Lent(s, m))
  {
    hide Whole, Awaken, Leaves;
    var l := MutexList(id);
    var h, q := Q(s.k, l)[0], Q(s.k, l);
    var s1 := WakeHead(s, l);
    var s' := Take(s1, id, h);
    OnWait(s.k, h, l);
    AwakenOk(s.k, h, EOK);
    WokenSame(s.k, s1.k, h);
    forall x ensures Single(s', x, alone) { assert Single(s, x, alone) && Single(s, h, alone) && Same(T(s.k, x), T(s1.k, x)); }
    LeftSorted(s.k, s1.k, h, m);
    LeftWaiters(s.k, s1.k, h, l);
    if m == id {
      forall w | w in Q(s1.k, l) ensures T(s1.k, h).prio <= T(s1.k, w).prio {
        var j :| 0 <= j < |q| && q[j] == w;
        assert Before(s.k, q[0], q[j]) && Same(T(s.k, h), T(s1.k, h)) && Same(T(s.k, w), T(s1.k, w));
      }
    } else {
      assert Q(s1.k, MutexList(m)) == Q(s.k, MutexList(m)) by { LeftOther(s.k, s1.k, h, l, MutexList(m)); }
      assert MutexOf(s', m) == MutexOf(s, m);
      assert forall x :: Same(T(s.k, x), T(s1.k, x));
    }
  }

  lemma WokenSame(k: Core, k': Core, h: Tid)
    requires Leaves(k, k', h) && !Locking(T(k', h)) && Same(T(k, h), T(k', h))
    ensures forall x :: Same(T(k, x), T(k', x))
  {
  }

  lemma LeftOther(k: Core, k': Core, h: Tid, l: ListId, m: ListId)
    requires Leaves(k, k', h) && T(k, h).qnode == On(l) && m != l && !m.ReadyList?
    ensures Q(k', m) == Q(k, m)
  {
  }

  // An unlock: what becomes of each mutex.
  lemma UnlockExact(s: State, id: nat, m: nat, alone: bool)
    requires Sound(s) && Inherits(s, alone) && Cur(s).pc == Outside && Cur(s).stat == Running && MutexOf(s, id).owner == Thread(s.k.cur)
    ensures var s' := MutexUnlock(s, id).0;
      && (forall t {:trigger Single(s', t, alone)} :: Single(s', t, alone)) && Queued(s', m)
      && (Lent(s', m) <==> m == id || !FallFails(s, id, m))
  {
    hide Whole, MutexesGood, ObjectsGood, Released, GiveUp, Single, Queued, Lent, FallFails, Inherits, Awaken, Schedule, SameSide;
    CallingRuns(s);
    var s1 := GiveUp(s, id);
    GiveUpReleased(s, id);
    GiveUpExact(s, id, m, alone);
    if Q(s1.k, MutexList(id)) == [] {
      FreeExact(s1, id, m, alone);
    } else {
      GiveUpExact(s, id, id, alone);
      HandOverExact(s1, id, m, alone);
      HandOverGood(s1, id);
      var s2 := Take(WakeHead(s1, MutexList(id)), id, Q(s1.k, MutexList(id))[0]);
      ScheduleOk(s2.k);
      SideMutex(s2, Schedule(s2.k), m);
      SideSingle(s2, Schedule(s2.k), alone);
    }
  }

  // An unlock keeps inheritance exactly if the caller stays urgent enough for what it still holds.
  lemma UnlockInherits(s: State, id: nat, alone: bool)
    requires Sound(s) && Inherits(s, alone) && Cur(s).pc == Outside && Cur(s).stat == Running
    ensures Inherits(MutexUnlock(s, id).0, alone) <==> !Harms(s, OpUnlock(id))
  {
    hide Whole, MutexesGood, ObjectsGood, MutexUnlock, Single, Queued, Lent;
    var s' := MutexUnlock(s, id).0;
    if MutexOf(s, id).owner == Thread(s.k.cur) {
      UnlockExact(s, id, id, alone);
      forall m ensures Queued(s', m) && (Lent(s', m) <==> !FallFails(s, id, m)) {
        UnlockExact(s, id, m, alone);
      }
    } else {
      NotOwnerUnlock(s, id);
    }
  }

  lemma NotOwnerUnlock(s: State, id: nat)
    requires MutexOf(s, id).owner != Thread(s.k.cur)
    ensures MutexUnlock(s, id).0 == s && forall m :: !FallFails(s, id, m)
  {
  }

  // With one mutex a thread at most, and none while it waits for one, no step does harm.
  lemma AloneHarmless(s: State, op: Op)
    requires Sound(s) && Inherits(s, true)
    ensures !Harms(s, op)
  {
    hide Whole, ObjectsGood;
    match op {
      case OpLock(id, _) =>
        forall m ensures !LockFails(s, id, m) {
          if MutexOf(s, id).owner.Thread? {
            var o := MutexOf(s, id).owner.t;
            OwnerNotWaiting(s, id, o);
            assert Single(s, o, true);
            if o in Q(s.k, MutexList(m)) { OnWait(s.k, o, MutexList(m)); }
          }
        }
      case OpUnlock(id) =>
        forall m ensures !FallFails(s, id, m) {
          assert Single(s, s.k.cur, true);
          if MutexOf(s, id).owner == Thread(s.k.cur) {
            OwnerNotWaiting(s, id, s.k.cur);
            assert Taken(s, s.k.cur) == [id];
          }
        }
      case _ =>
    }
  }

  lemma AwakenWhole(k: Core, t: Tid)
    requires Whole(k) && t in k.tcb && T(k, t).stat == Block
    ensures Whole(Awaken(k, t, EOK))
  {
    AwakenOk(k, t, EOK);
  }

  // ----- The other steps

  lemma SameInherits(s: State, s': State, alone: bool)
    requires Inherits(s, alone) && s'.k == s.k && s'.mutexes == s.mutexes && s'.taken == s.taken
    ensures Inherits(s', alone)
  {
    forall x ensures Single(s', x, alone) && Queued(s', x) && Lent(s', x) { assert Single(s, x, alone) && Queued(s, x) && Lent(s, x); }
  }

  lemma FlagsInherits(s: State, asked: bool, nest: nat, alone: bool)
    requires Inherits(s, alone)
    ensures Inherits(s.(k := s.k.(asked := asked, nest := nest)), alone)
  {
    var s' := s.(k := s.k.(asked := asked, nest := nest));
    assert forall x :: T(s'.k, x) == T(s.k, x);
    forall x ensures Single(s', x, alone) && Queued(s', x) && Lent(s', x) {
      assert Single(s, x, alone) && Queued(s, x) && Lent(s, x);
      SortedSame(s.k, s'.k, Q(s.k, MutexList(x)));
    }
  }

  lemma LeaveInherits(s: State, alone: bool)
    requires Sound(s) && Inherits(s, alone)
    ensures Inherits(Leave(s), alone)
  {
    hide Linked, BitsOk, MutexesGood, ObjectsGood, Inherits;
    CallingRuns(s);
    if s.k.nest == 0 {
      PutOnly(s.k, s.k.cur, Cur(s).(pc := Outside));
      OneInherits(s, Leave(s).k, s.k.cur, alone);
    }
  }

  lemma WakeOneInherits(s: State, l: ListId, alone: bool)
    requires Good(s) && Inherits(s, alone) && !l.ReadyList? && !l.MutexList?
    ensures Inherits(WakeOne(s, l), alone)
  {
    hide Whole, MutexesGood, ObjectsGood, Inherits;
    if Q(s.k, l) != [] {
      OnWait(s.k, Q(s.k, l)[0], l);
      AwakenInherits(s, Q(s.k, l)[0], EOK, alone);
      WakeHeadGood(s, l);
      RescheduledInherits(WakeHead(s, l), alone);
    }
  }

  lemma QueueInherits(s: State, id: nat, msg: nat, timeout: Timeout, alone: bool)
    requires Sound(s) && Inherits(s, alone) && MayCall(s, timeout)
    ensures Inherits(QueueSend(s, id, msg, timeout).0, alone) && Inherits(QueueRecv(s, id, timeout).0, alone)
  {
    hide Whole, MutexesGood, ObjectsGood, Inherits, Wait, WakeOne;
    CallingRuns(s);
    LeaveInherits(s, alone);
    LeaveSound(s);
    QueueFact(s, id);
    var q := QueueOf(s, id);
    if !timeout.NoWait? {
      WaitInherits(s, SendQueue(id, msg, timeout), alone);
      WaitInherits(s, RecvQueue(id, timeout), alone);
    }
    if |q.msgs| != q.max {
      var q' := q.(msgs := q.msgs + [msg], sent := q.sent + [msg]);
      StoreInherits(s, id, q', RecvList(id), alone);
    }
    if q.msgs != [] {
      var q' := q.(msgs := q.msgs[1..], got := q.got + [q.msgs[0]]);
      assert q'.sent == q'.got + q'.msgs;
      StoreInherits(s, id, q', SendList(id), alone);
    }
  }

  lemma StoreInherits(s: State, id: nat, q: Queue, l: ListId, alone: bool)
    requires Sound(Leave(s)) && Inherits(Leave(s), alone) && !l.ReadyList? && !l.MutexList?
    requires |q.msgs| <= q.max && 1 <= q.max && q.sent == q.got + q.msgs
    ensures Inherits(WakeOne(Leave(s).(queues := s.queues[id := q]), l), alone)
  {
    hide Whole, MutexesGood, ObjectsGood, Inherits, WakeOne;
    var s1 := Leave(s);
    QueuesSound(s1, id, q);
    SameInherits(s1, s1.(queues := s1.queues[id := q]), alone);
    WakeOneInherits(s1.(queues := s1.queues[id := q]), l, alone);
  }

  lemma PoolInherits(s: State, id: nat, timeout: Timeout, alone: bool)
    requires Sound(s) && Inherits(s, alone) && MayCall(s, timeout)
    ensures Inherits(PoolAlloc(s, id, timeout).0, alone)
  {
    hide Whole, MutexesGood, ObjectsGood, Inherits, Wait;
    CallingRuns(s);
    LeaveInherits(s, alone);
    if PoolOf(s, id).free == 0 {
      if !timeout.NoWait? { WaitInherits(s, AllocPool(id, timeout), alone); }
    } else {
      SameInherits(Leave(s), PoolAlloc(s, id, timeout).0, alone);
    }
  }

  lemma PoolFreeInherits(s: State, id: nat, alone: bool)
    requires Sound(s) && Inherits(s, alone)
    ensures Inherits(PoolFree(s, id), alone)
  {
    hide Whole, MutexesGood, ObjectsGood, Inherits, WakeOne;
    var p := PoolOf(s, id).(free := PoolOf(s, id).free + 1);
    PoolsSound(s, id, p);
    SameInherits(s, s.(pools := s.pools[id := p]), alone);
    WakeOneInherits(s.(pools := s.pools[id := p]), PoolList(id), alone);
  }

  lemma SemInherits(s: State, id: nat, timeout: Timeout, alone: bool)
    requires Sound(s) && Inherits(s, alone) && MayCall(s, timeout)
    ensures Inherits(SemTake(s, id, timeout).0, alone)
  {
    hide Whole, MutexesGood, ObjectsGood, Inherits, Wait;
    CallingRuns(s);
    var m := SemOf(s, id);
    if m.val > 0 {
      SameInherits(s, SemTake(s, id, timeout).0, alone);
    } else if !timeout.NoWait? {
      WaitInherits(s, TakeSem(id, timeout), alone);
    }
  }

  lemma SemReleaseInherits(s: State, id: nat, alone: bool)
    requires Sound(s) && Inherits(s, alone)
    ensures Inherits(SemRelease(s, id), alone)
  {
    hide Whole, MutexesGood, Inherits;
    var m := SemOf(s, id);
    assert SemGood(s, id);
    if Q(s.k, SemList(id)) == [] {
      SameInherits(s, SemRelease(s, id), alone);
    } else {
      var s1, m' := WakeHead(s, SemList(id)), m.(released := m.released + 1, granted := m.granted + 1);
      var s2 := s1.(sems := s1.sems[id := m']);
      OnWait(s.k, Q(s.k, SemList(id))[0], SemList(id));
      AwakenInherits(s, Q(s.k, SemList(id))[0], EOK, alone);
      WakeHeadGood(s, SemList(id));
      HandedGood(s1, id, m');
      SameInherits(s1, s2, alone);
      RescheduledInherits(s2, alone);
    }
  }

  lemma {:induction false} WalkInherits(s: State, id: nat, rest: seq<Tid>, alone: bool)
    requires Walking(s, id, rest) && Inherits(s, alone)
    ensures Inherits(EventWalk(s, id, rest), alone)
    decreases |rest|
  {
    hide Walking, Inherits, Satisfied;
    if rest != [] {
      var c := T(s.k, rest[0]);
      if Satisfied(EventOf(s, id), c.mask, c.every) {
        WalkWake(s, id, rest);
        WalkWakeInherits(s, id, rest, alone);
        WalkInherits(s.(events := s.events[id := EventOf(s, id) - c.mask], k := Awaken(s.k, rest[0], c.error)), id, rest[1..], alone);
      } else {
        WalkSkip(s, id, rest);
        WalkInherits(s, id, rest[1..], alone);
      }
    }
  }

  lemma WalkWakeInherits(s: State, id: nat, rest: seq<Tid>, alone: bool)
    requires Walking(s, id, rest) && rest != [] && Inherits(s, alone)
    ensures var c := T(s.k, rest[0]);
      Inherits(s.(events := s.events[id := EventOf(s, id) - c.mask], k := Awaken(s.k, rest[0], c.error)), alone)
  {
    hide Whole, Inherits, InheritBut;
    var h, c := rest[0], T(s.k, rest[0]);
    OnWait(s.k, h, EventList(id));
    AwakenOk(s.k, h, c.error);
    var k := Awaken(s.k, h, c.error);
    NoneBut(s, 0, alone);
    assert Lent(s, 0) by { LentAt(s, 0, alone); }
    LeftInherits(s, k, h, 0, alone);
    AllOf(s.(k := k), 0, alone);
    SameInherits(s.(k := k), s.(events := s.events[id := EventOf(s, id) - c.mask], k := k), alone);
  }

  lemma LentAt(s: State, m: nat, alone: bool)
    requires Inherits(s, alone)
    ensures Lent(s, m)
  {
  }

  lemma EventSendInherits(s: State, id: nat, bits: set<nat>, alone: bool)
    requires Sound(s) && Inherits(s, alone)
    ensures Inherits(EventSend(s, id, bits), alone)
  {
    hide Whole, MutexesGood, ObjectsGood, Inherits, Walking;
    var s1 := s.(events := s.events[id := EventOf(s, id) + bits]);
    WalkStart(s, id, bits);
    SameInherits(s, s1, alone);
    WalkInherits(s1, id, Q(s.k, EventList(id)), alone);
    WalkGood(s1, id, Q(s.k, EventList(id)));
    RescheduledInherits(EventWalk(s1, id, Q(s.k, EventList(id))), alone);
  }

  lemma EventRecvInherits(s: State, id: nat, mask: set<nat>, every: bool, timeout: Timeout, alone: bool)
    requires Sound(s) && Inherits(s, alone) && MayCall(s, timeout)
    ensures Inherits(EventRecv(s, id, mask, every, timeout).0, alone)
  {
    hide Whole, MutexesGood, ObjectsGood, Inherits, Wait, Put;
    CallingRuns(s);
    var c := Cur(s).(mask := mask, every := every);
    var s1 := s.(k := Put(s.k, s.k.cur, c));
    MaskSound(s, mask, every);
    PutOnly(s.k, s.k.cur, c);
    OneInherits(s, s1.k, s.k.cur, alone);
    if Satisfied(EventOf(s, id), mask, every) {
      SameInherits(s1, EventRecv(s, id, mask, every, timeout).0, alone);
    } else if !timeout.NoWait? {
      WaitInherits(s1, RecvEvent(id, timeout), alone);
    }
  }

  lemma JoinInherits(s: State, t: Tid, timeout: Timeout, alone: bool)
    requires Sound(s) && Inherits(s, alone) && MayCall(s, timeout)
    ensures Inherits(ThreadJoin(s, t, timeout).0, alone)
  {
    hide Whole, MutexesGood, ObjectsGood, Inherits, Wait;
    CallingRuns(s);
    if t != s.k.cur && T(s.k, t).stat != Dead && !timeout.NoWait? {
      WaitInherits(s, JoinThread(t, timeout), alone);
    }
  }

  lemma DelayInherits(s: State, n: nat, alone: bool)
    requires Sound(s) && Inherits(s, alone) && Calling(s)
    ensures Inherits(ThreadDelay(s, n), alone)
  {
    hide Linked, BitsOk, MutexesGood, ObjectsGood, Inherits;
    CallingRuns(s);
    DelayStartOk(s.k, n);
    OneInherits(s, DelayStart(s.k, n), s.k.cur, alone);
    DelayGood(s, n);
    RescheduledInherits(s.(k := DelayStart(s.k, n)), alone);
  }

  lemma YieldInherits(s: State, alone: bool)
    requires Sound(s) && Inherits(s, alone)
    ensures Inherits(ThreadYield(s), alone)
  {
    hide Linked, BitsOk, ObjectsGood, MutexesGood, Inherits;
    var c, s1 := Cur(s).(yielding := true), s.(k := Put(s.k, s.k.cur, Cur(s).(yielding := true)));
    PutWhole(s.k, s.k.cur, c);
    PutOnly(s.k, s.k.cur, c);
    SideGood(s, s1.k);
    OneInherits(s, s1.k, s.k.cur, alone);
    RescheduledInherits(s1, alone);
  }

  lemma ResumeInherits(s: State, t: Tid, alone: bool)
    requires Sound(s) && Inherits(s, alone) && t in s.k.tcb
    ensures Inherits(ThreadResume(s, t).0, alone)
  {
    hide Linked, BitsOk, ObjectsGood, MutexesGood, Inherits;
    if T(s.k, t).stat == Suspend {
      ResumeOk(s.k, t);
      var s1 := s.(k := AddTail(Put(s.k, t, T(s.k, t).(stat := Ready)), t));
      MinorGood(s, s1.k, t);
      OneInherits(s, s1.k, t, alone);
      RescheduledInherits(s1, alone);
    }
  }

  lemma RetireInherits(s: State, t: Tid, st: Stat, alone: bool)
    requires Good(s) && Inherits(s, alone) && t in s.k.tcb && t != s.k.idle && (st == Suspend || st == Dead)
    ensures Inherits(s.(k := Retire(s.k, t, st)), alone)
  {
    hide Whole, MutexesGood, ObjectsGood, Inherits, InheritBut;
    RetireOk(s.k, t, st);
    NoneBut(s, 0, alone);
    LentAt(s, 0, alone);
    LeftInherits(s, Retire(s.k, t, st), t, 0, alone);
    AllOf(s.(k := Retire(s.k, t, st)), 0, alone);
  }

  lemma SuspendInherits(s: State, t: Tid, alone: bool)
    requires Sound(s) && Inherits(s, alone) && t in s.k.tcb && t != s.k.idle
    ensures Inherits(ThreadSuspend(s, t).0, alone)
  {
    hide Whole, MutexesGood, ObjectsGood, Inherits, Retire;
    if Taken(s, t) == [] && T(s.k, t).stat != Dead && T(s.k, t).stat != Suspend {
      RetireInherits(s, t, Suspend, alone);
      RetireGood(s, t);
      RescheduledInherits(s.(k := Retire(s.k, t, Suspend)), alone);
    }
  }

  lemma {:induction false} WakeAllInherits(s: State, t: Tid, alone: bool)
    requires Whole(s.k) && ObjectsGoodBut(s, t) && MutexesGood(s) && Inherits(s, alone)
    ensures Inherits(s.(k := WakeAll(s.k, JoinList(t))), alone)
    decreases |Q(s.k, JoinList(t))|
  {
    hide Whole, Inherits, InheritBut, MutexesGood, ObjectsGoodBut;
    var l := JoinList(t);
    if Q(s.k, l) == [] {
      assert s.(k := s.k) == s;
    } else {
      var h := Q(s.k, l)[0];
      OnWait(s.k, h, l);
      AwakenOk(s.k, h, EOK);
      var k := Awaken(s.k, h, EOK);
      NoneBut(s, 0, alone);
      LentAt(s, 0, alone);
      LeftInherits(s, k, h, 0, alone);
      AllOf(s.(k := k), 0, alone);
      WakeAllStep(s, t);
      assert Q(k, l) == Minus(Q(s.k, l), h) == Q(s.k, l)[1..];
      WakeAllInherits(s.(k := k), t, alone);
    }
  }

  lemma AbortInherits(s: State, t: Tid, alone: bool)
    requires Sound(s) && Inherits(s, alone) && t in s.k.tcb
    ensures Inherits(ThreadAbort(s, t).0, alone)
  {
    hide Whole, ObjectsGood, MutexesGood, ObjectsGoodBut, Inherits, Retire;
    if T(s.k, t).stat != Dead && !T(s.k, t).essential {
      RetireOther(s.k, t);
      RetireGood(s, t);
      RetireInherits(s, t, Dead, alone);
      var s1 := s.(k := Retire(s.k, t, Dead));
      WakeAllGood(s1, t);
      WakeAllInherits(s1, t, alone);
      RescheduledInherits(s1.(k := WakeAll(s1.k, JoinList(t))), alone);
    }
  }

  lemma CreateInherits(s: State, t: Tid, prio: nat, essential: bool, alone: bool)
    requires Sound(s) && Inherits(s, alone) && t !in s.k.tcb
    ensures Inherits(ThreadCreate(s, t, prio, essential).0, alone)
  {
    hide Linked, BitsOk, ThreadOk;
    if prio < PRIOS {
      var k := Create(s.k, t, prio, essential);
      CreateOk(s.k, t, prio, essential);
      var s' := s.(k := k);
      assert Single(s, s.k.idle, alone);
      forall x ensures Single(s', x, alone) {
        assert Single(s, x, alone) && TakenGood(s, x);
        assert x != t ==> T(k, x) == T(s.k, x);
        NewHoldsNone(s, t);
      }
      forall m ensures Queued(s', m) && Lent(s', m) {
        assert Queued(s, m) && Lent(s, m) && MutexGood(s, m) && Q(k, MutexList(m)) == Q(s.k, MutexList(m));
        assert ListOk(s.k, MutexList(m)) by { WaitListOk(s.k, MutexList(m)); }
        assert forall x | x in Q(s.k, MutexList(m)) :: T(k, x) == T(s.k, x);
        SortedSame(s.k, k, Q(s.k, MutexList(m)));
      }
      CreateSoundly(s, t, prio, essential);
      RescheduledInherits(s', alone);
    }
  }

  lemma WaitListOk(k: Core, l: ListId)
    requires Linked(k)
    ensures ListOk(k, l)
  {
  }

  // A step keeps inheritance exactly if it does no harm.
  lemma StepInherits(s: State, op: Op, alone: bool)
    requires Sound(s) && Inherits(s, alone) && Legal(s, op) && (alone ==> Disciplined(s, op))
    ensures Inherits(Step(s, op).0, alone) <==> !Harms(s, op)
  {
    hide Sound, Inherits, SemTake, SemRelease, MutexLock, MutexUnlock, QueueSend, QueueRecv, PoolAlloc, PoolFree, EventSend,
      EventRecv,
      ThreadJoin, ThreadDelay, ThreadYield, ThreadSuspend, ThreadResume, ThreadAbort, ThreadCreate, EnterIrq, ExitIrq, TimerFires, Return;
    match op
    case OpSemTake(id, timeout) => SemInherits(s, id, timeout, alone);
    case OpSemRelease(id) => SemReleaseInherits(s, id, alone);
    case OpLock(id, timeout) => LockInherits(s, id, timeout, alone);
    case OpUnlock(id) => UnlockInherits(s, id, alone);
    case OpSend(id, msg, timeout) => QueueInherits(s, id, msg, timeout, alone);
    case OpRecv(id, timeout) => QueueInherits(s, id, 0, timeout, alone);
    case OpAlloc(id, timeout) => PoolInherits(s, id, timeout, alone);
    case OpFree(id) => PoolFreeInherits(s, id, alone);
    case OpEventSend(id, bits) => EventSendInherits(s, id, bits, alone);
    case OpEventRecv(id, mask, every, timeout) => EventRecvInherits(s, id, mask, every, timeout, alone);
    case OpJoin(t, timeout) => JoinInherits(s, t, timeout, alone);
    case OpDelay(n) => DelayInherits(s, n, alone);
    case OpYield => YieldInherits(s, alone);
    case OpSuspend(t) => SuspendInherits(s, t, alone);
    case OpResume(t) => ResumeInherits(s, t, alone);
    case OpAbort(t) => AbortInherits(s, t, alone);
    case OpCreate(t, prio, essential) => CreateInherits(s, t, prio, essential, alone);
    case OpEnter => EnterInherits(s, alone);
    case OpExit => ExitInherits(s, alone);
    case OpTimer(t) => TimerInherits(s, t, alone);
    case OpSlice(t) => YieldInherits(s, alone);
    case OpReturn => ReturnInherits(s, alone);
  }

  lemma EnterInherits(s: State, alone: bool)
    requires Inherits(s, alone)
    ensures Inherits(EnterIrq(s), alone)
  {
    hide Inherits;
    FlagsInherits(s, s.k.asked, s.k.nest + 1, alone);
  }

  lemma ExitInherits(s: State, alone: bool)
    requires Sound(s) && Inherits(s, alone) && s.k.nest > 0
    ensures Inherits(ExitIrq(s), alone)
  {
    hide Whole, ObjectsGood, MutexesGood, Inherits;
    var n := s.k.nest - 1;
    FlagsInherits(s, s.k.asked, n, alone);
    if n == 0 && s.k.asked {
      FlagsInherits(s, false, 0, alone);
      FlagsGood(s, false, 0);
      var k := s.k.(asked := false, nest := 0);
      assert k == s.k.(nest := 0).(asked := false);
      ScheduleCoreOk(k);
      SideInherits(s.(k := k), ScheduleCore(k), alone);
    }
  }

  lemma TimerInherits(s: State, t: Tid, alone: bool)
    requires Sound(s) && Inherits(s, alone) && s.k.nest > 0 && t in s.k.tcb && T(s.k, t).timer != Disarmed
    ensures Inherits(TimerFires(s, t), alone)
  {
    hide Whole, ObjectsGood, MutexesGood, Inherits, Awaken;
    var e: Ending := if T(s.k, t).timer == PendTimer then ETIMEOUT else T(s.k, t).error;
    TimerSound(s, t);
    TimerGood(s, t);
    AwakenInherits(s, t, e, alone);
    RescheduledInherits(s.(k := Awaken(s.k, t, e)), alone);
  }

  lemma TimerGood(s: State, t: Tid)
    requires Good(s) && t in s.k.tcb && T(s.k, t).timer != Disarmed
    ensures Good(s.(k := Awaken(s.k, t, if T(s.k, t).timer == PendTimer then ETIMEOUT else T(s.k, t).error)))
  {
    hide Linked, BitsOk, ObjectsGood, MutexesGood;
    AwakenGood(s, t, if T(s.k, t).timer == PendTimer then ETIMEOUT else T(s.k, t).error);
  }

  lemma ReturnInherits(s: State, alone: bool)
    requires Sound(s) && Inherits(s, alone) && s.k.nest == 0 && Cur(s).pc.Inside?
    ensures Inherits(Return(s).0, alone)
  {
    hide Linked, BitsOk, ObjectsGood, MutexesGood, Inherits, QueueSend, QueueRecv, PoolAlloc;
    CallingRuns(s);
    LeaveInherits(s, alone);
    match Cur(s).pc {
      case Outside =>
      case Inside(call) =>
        match call
        case SendQueue(id, msg, timeout) => QueueInherits(s, id, msg, timeout, alone);
        case RecvQueue(id, timeout) => QueueInherits(s, id, 0, timeout, alone);
        case AllocPool(id, timeout) => PoolInherits(s, id, timeout, alone);
        case _ =>
    }
  }
}
