// No lost wake-ups: messages, slots and blocks on offer while threads wait are covered by threads already woken for them.
module Wakeups {
  import opened BitOps
  import opened KernelCore
  import opened Ipc

  // The wait lists of the calls that try again after waking.
  predicate Watched(l: ListId) { l.RecvList? || l.SendList? || l.PoolList? }

  // What a waiter of l is waiting for, and how much of it there is.
  function OnOffer(s: State, l: ListId): int {
    match l
    case RecvList(q) => |QueueOf(s, q).msgs|
    case SendList(q) => QueueOf(s, q).max - |QueueOf(s, q).msgs|
    case PoolList(p) => PoolOf(s, p).free
    case _ => 0
  }

  // Woken from l, not by timeout or suspension, and still to look again.
  ghost predicate IsWoken(c: Tcb, l: ListId) {
    && c.pc.Inside? && !c.pc.call.DelayFor? && WaitList(c.pc.call) == l
    && c.stat != Block && c.stat != Dead && c.error != ETIMEOUT && !c.cut
  }

  ghost function Woken(k: Core, l: ListId): set<Tid> {
    set t | t in k.tcb && IsWoken(T(k, t), l)
  }

  ghost predicate Covered(s: State, l: ListId) {
    Q(s.k, l) != [] ==> OnOffer(s, l) <= |Woken(s.k, l)|
  }

  ghost predicate NoneLost(s: State) {
    forall l {:trigger Covered(s, l)} | Watched(l) :: Covered(s, l)
  }

  // No thread is aborted between its wake-up and its next look.
  ghost predicate Spares(s: State, op: Op) {
    op.OpAbort? ==> forall l | Watched(l) :: !IsWoken(T(s.k, op.t), l)
  }

  // Waiters at most leave, and the woken stay woken.
  ghost predicate Mono(k: Core, k': Core, l: ListId) {
    (Q(k', l) != [] ==> Q(k, l) != []) && Woken(k, l) <= Woken(k', l)
  }

  lemma SubsetCard(a: set<Tid>, b: set<Tid>)
    requires a <= b
    ensures |a| <= |b|
  {
    assert b == a + (b - a);
  }

  lemma MonoCovered(s: State, s': State, l: ListId)
    requires Covered(s, l) && Mono(s.k, s'.k, l) && OnOffer(s', l) <= OnOffer(s, l)
    ensures Covered(s', l)
  {
    SubsetCard(Woken(s.k, l), Woken(s'.k, l));
  }

  ghost predicate AllMono(k: Core, k': Core) {
    forall l {:trigger Mono(k, k', l)} | Watched(l) :: Mono(k, k', l)
  }

  lemma AllCovered(s: State, s': State)
    requires NoneLost(s) && AllMono(s.k, s'.k) && s'.queues == s.queues && s'.pools == s.pools
    ensures NoneLost(s')
  {
    forall l | Watched(l) ensures Covered(s', l) {
      assert Covered(s, l) && Mono(s.k, s'.k, l);
      MonoCovered(s, s', l);
    }
  }

  lemma MonoTwice(k: Core, k1: Core, k2: Core)
    requires AllMono(k, k1) && AllMono(k1, k2)
    ensures AllMono(k, k2)
  {
    forall l | Watched(l) ensures Mono(k, k2, l) { assert Mono(k, k1, l) && Mono(k1, k2, l); }
  }

  // ----- Steps of the thread side

  lemma SideMono(k: Core, k': Core)
    requires SameSide(k, k')
    ensures AllMono(k, k')
    ensures forall l | Watched(l) :: Q(k', l) == Q(k, l) && Woken(k', l) == Woken(k, l)
  {
    forall l | Watched(l) ensures Mono(k, k', l) && Q(k', l) == Q(k, l) && Woken(k', l) == Woken(k, l) {
      assert Q(k', l) == Q(k, l);
      forall t ensures t in Woken(k, l) <==> t in Woken(k', l) { assert Alike(T(k, t), T(k', t)); }
    }
  }

  lemma ScheduleMono(k: Core)
    requires Whole(k)
    ensures AllMono(k, Schedule(k))
    ensures forall l | Watched(l) :: Q(Schedule(k), l) == Q(k, l) && Woken(Schedule(k), l) == Woken(k, l)
  {
    hide Whole, SameSide, AllMono;
    ScheduleOk(k);
    SideMono(k, Schedule(k));
  }

  // Thread t changes off the wait lists; if it was woken it still is.
  lemma OneMono(k: Core, k': Core, t: Tid)
    requires OnlyReady(k, k', t) && forall l | Watched(l) && IsWoken(T(k, t), l) :: IsWoken(T(k', t), l)
    ensures AllMono(k, k')
  {
    forall l | Watched(l) ensures Mono(k, k', l) {
      assert Q(k', l) == Q(k, l);
      forall x | x in Woken(k, l) ensures x in Woken(k', l) { assert x != t ==> T(k', x) == T(k, x); }
    }
  }

  lemma LeftMono(k: Core, k': Core, t: Tid)
    requires Whole(k) && Leaves(k, k', t) && forall l | Watched(l) && IsWoken(T(k, t), l) :: IsWoken(T(k', t), l)
    ensures AllMono(k, k')
  {
    hide Whole;
    forall l | Watched(l) ensures Mono(k, k', l) {
      LeftWaiters(k, k', t, l);
      forall x | x in Woken(k, l) ensures x in Woken(k', l) { assert x != t ==> T(k', x) == T(k, x); }
    }
  }

  lemma AwakenMono(k: Core, t: Tid, e: Ending)
    requires Whole(k) && t in k.tcb && T(k, t).stat == Block
    ensures AllMono(k, Awaken(k, t, e))
  {
    hide Whole;
    AwakenOk(k, t, e);
    LeftMono(k, Awaken(k, t, e), t);
  }

  // A waiter woken from l is one more of the woken.
  lemma AwakenAdds(k: Core, l: ListId)
    requires Whole(k) && Watched(l) && Q(k, l) != []
    ensures var (h, k') := (Q(k, l)[0], Awaken(k, Q(k, l)[0], EOK));
      |Woken(k', l)| == |Woken(k, l)| + 1 && (forall m | Watched(m) && m != l :: Mono(k, k', m))
  {
    hide Whole;
    var h, k' := Q(k, l)[0], Awaken(k, Q(k, l)[0], EOK);
    OnWait(k, h, l);
    AwakenOk(k, h, EOK);
    NotCut(k, h);
    AwakenMono(k, h, EOK);
    forall x ensures x in Woken(k', l) <==> x in Woken(k, l) || x == h { assert x != h ==> T(k', x) == T(k, x); }
    assert Woken(k', l) == Woken(k, l) + {h};
  }

  // The current thread waits for something that is not watched, or comes from outside.
  lemma PendMono(k: Core, call: Call)
    requires k.cur in k.tcb && !call.DelayFor? && Pended(k, Pend(k, call), call) && !Watched(WaitList(call)) && !Watching(T(k, k.cur))
    ensures AllMono(k, Pend(k, call))
  {
    hide Pend;
    var k' := Pend(k, call);
    forall l | Watched(l) ensures Mono(k, k', l) {
      assert Q(k', l) == Q(k, l);
      forall x | x in Woken(k, l) ensures x in Woken(k', l) { assert x != k.cur ==> T(k', x) == T(k, x); }
    }
  }

  ghost predicate Watching(c: Tcb) { c.pc.Inside? && !c.pc.call.DelayFor? && Watched(WaitList(c.pc.call)) }

  lemma WaitMono(s: State, call: Call)
    requires Good(s) && MayWait(s, call) && !Watched(WaitList(call)) && !Watching(Cur(s))
    ensures AllMono(s.k, Wait(s, call).k)
  {
    hide Linked, BitsOk, MutexesGood, ObjectsGood, AllMono, Pended, ThreadOk;
    PendOk(s.k, call);
    PendMono(s.k, call);
    ScheduleMono(Pend(s.k, call));
    MonoTwice(s.k, Pend(s.k, call), Wait(s, call).k);
  }

  // The current thread waits on a watched list with nothing on offer.
  lemma WaitCovered(s: State, call: Call)
    requires Good(s) && NoneLost(s) && MayWait(s, call) && OnOffer(s, WaitList(call)) <= 0
    requires Watching(Cur(s)) ==> WaitList(Cur(s).pc.call) == WaitList(call)
    ensures NoneLost(Wait(s, call))
  {
    hide Linked, BitsOk, MutexesGood, ObjectsGood, ThreadOk, Schedule, Pended, Woken;
    PendOk(s.k, call);
    var k1, s' := Pend(s.k, call), Wait(s, call);
    ScheduleMono(k1);
    forall l | Watched(l) ensures Covered(s', l) {
      assert Covered(s, l);
      assert Mono(k1, s'.k, l);
      if l != WaitList(call) {
        PendOther(s.k, call, l);
        MonoCovered(s, s', l);
      }
    }
  }

  lemma PendOther(k: Core, call: Call, l: ListId)
    requires k.cur in k.tcb && !call.DelayFor? && Pended(k, Pend(k, call), call) && l != WaitList(call) && Watched(l)
    requires Watching(T(k, k.cur)) ==> WaitList(T(k, k.cur).pc.call) == WaitList(call)
    ensures Mono(k, Pend(k, call), l)
  {
    hide Pend;
    var k' := Pend(k, call);
    assert Q(k', l) == Q(k, l);
    forall x | x in Woken(k, l) ensures x in Woken(k', l) { assert x != k.cur ==> T(k', x) == T(k, x); }
  }

  // ----- Taking a turn: leaving the call, with one less on offer on the own list

  lemma LeaveMono(s: State, own: ListId)
    requires s.k.cur in s.k.tcb && Watched(own) && (s.k.nest == 0 && Watching(Cur(s)) ==> WaitList(Cur(s).pc.call) == own)
    ensures |Woken(Leave(s).k, own)| >= |Woken(s.k, own)| - 1 && Q(Leave(s).k, own) == Q(s.k, own)
    ensures forall l | Watched(l) && l != own :: Mono(s.k, Leave(s).k, l)
  {
    var k, k', t := s.k, Leave(s).k, s.k.cur;
    if s.k.nest == 0 {
      PutOnly(k, t, Cur(s).(pc := Outside));
      forall l | Watched(l) && l != own ensures Mono(k, k', l) {
        assert Q(k', l) == Q(k, l);
        forall x | x in Woken(k, l) ensures x in Woken(k', l) { assert x != t ==> T(k', x) == T(k, x); }
      }
      forall x | x in Woken(k, own) - {t} ensures x in Woken(k', own) { assert T(k', x) == T(k, x); }
      SubsetCard(Woken(k, own) - {t}, Woken(k', own));
    }
  }

  lemma WakeOneCovered(s: State, s1: State, l: ListId)
    requires Good(s1) && Watched(l) && s.queues == s1.queues && s.pools == s1.pools
    requires forall m | Watched(m) && m != l :: Covered(s1, m)
    requires OnOffer(s1, l) <= |Woken(s1.k, l)| + 1 || Q(s1.k, l) == []
    ensures NoneLost(WakeOne(s1, l))
  {
    hide Whole, MutexesGood, ObjectsGood, Schedule, Awaken, Woken;
    var s' := WakeOne(s1, l);
    if Q(s1.k, l) != [] {
      var k2 := WakeHead(s1, l).k;
      AwakenAdds(s1.k, l);
      OnWait(s1.k, Q(s1.k, l)[0], l);
      AwakenWhole(s1.k, Q(s1.k, l)[0]);
      ScheduleMono(k2);
      forall m | Watched(m) ensures Covered(s', m) {
        if m != l {
          assert Covered(s1, m) && Mono(s1.k, k2, m) && Mono(k2, s'.k, m);
          MonoCovered(s1, s', m);
        }
      }
    } else {
      forall m | Watched(m) ensures Covered(s', m) { assert m != l ==> Covered(s1, m); }
    }
  }

  lemma AwakenWhole(k: Core, t: Tid)
    requires Whole(k) && t in k.tcb && T(k, t).stat == Block
    ensures Whole(Awaken(k, t, EOK))
  {
    AwakenOk(k, t, EOK);
  }

  // One message goes in or out of queue id, and the other side is woken.
  lemma TurnCovered(s: State, id: nat, q: Queue, own: ListId, other: ListId)
    requires Sound(s) && NoneLost(s) && (s.k.nest == 0 ==> s.k.cur != s.k.idle)
    requires (own == SendList(id) && other == RecvList(id) && |q.msgs| == |QueueOf(s, id).msgs| + 1)
          || (own == RecvList(id) && other == SendList(id) && |q.msgs| == |QueueOf(s, id).msgs| - 1)
    requires q.max == QueueOf(s, id).max && |q.msgs| <= q.max && 1 <= q.max && q.sent == q.got + q.msgs
    requires s.k.nest == 0 && Watching(Cur(s)) ==> WaitList(Cur(s).pc.call) == own
    ensures NoneLost(WakeOne(Leave(s).(queues := s.queues[id := q]), other))
  {
    hide Whole, MutexesGood, ObjectsGood, Leave, WakeOne, OnlyReady, Woken;
    CallingRuns(s);
    LeaveSound(s);
    LeaveMono(s, own);
    var s1 := Leave(s).(queues := s.queues[id := q]);
    assert Leave(s).queues == s.queues && Leave(s).pools == s.pools by { LeaveObjects(s); }
    QueuesSound(Leave(s), id, q);
    forall m | Watched(m) && m != other ensures Covered(s1, m) {
      assert Covered(s, m);
      if m != own {
        assert Mono(s.k, Leave(s).k, m);
        MonoCovered(s, s1, m);
      }
    }
    assert Covered(s, other) && Mono(s.k, Leave(s).k, other);
    SubsetCard(Woken(s.k, other), Woken(s1.k, other));
    WakeOneCovered(s1, s1, other);
  }

  lemma LeaveObjects(s: State)
    ensures Leave(s).queues == s.queues && Leave(s).pools == s.pools && Leave(s).sems == s.sems && Leave(s).events == s.events
  {
  }

  lemma LeaveCovered(s: State)
    requires NoneLost(s) && s.k.cur in s.k.tcb && (s.k.nest == 0 && Watching(Cur(s)) ==> Cur(s).error == ETIMEOUT)
    ensures NoneLost(Leave(s))
  {
    if s.k.nest == 0 {
      PutOnly(s.k, s.k.cur, Cur(s).(pc := Outside));
      OneMono(s.k, Leave(s).k, s.k.cur);
      AllCovered(s, Leave(s));
    }
  }

  lemma SendCovered(s: State, id: nat, msg: nat, timeout: Timeout)
    requires Sound(s) && NoneLost(s) && MayCall(s, timeout)
    requires s.k.nest == 0 && Watching(Cur(s)) ==> WaitList(Cur(s).pc.call) == SendList(id) && !timeout.NoWait?
    ensures NoneLost(QueueSend(s, id, msg, timeout).0)
  {
    hide Whole, MutexesGood, ObjectsGood, NoneLost, Leave, WakeOne, Wait;
    CallingRuns(s);
    QueueFact(s, id);
    var q := QueueOf(s, id);
    if |q.msgs| != q.max {
      TurnCovered(s, id, q.(msgs := q.msgs + [msg], sent := q.sent + [msg]), SendList(id), RecvList(id));
    } else if timeout.NoWait? {
      LeaveCovered(s);
    } else {
      WaitCovered(s, SendQueue(id, msg, timeout));
    }
  }

  lemma RecvCovered(s: State, id: nat, timeout: Timeout)
    requires Sound(s) && NoneLost(s) && MayCall(s, timeout)
    requires s.k.nest == 0 && Watching(Cur(s)) ==> WaitList(Cur(s).pc.call) == RecvList(id) && !timeout.NoWait?
    ensures NoneLost(QueueRecv(s, id, timeout).0)
  {
    hide Whole, MutexesGood, ObjectsGood, NoneLost, Leave, WakeOne, Wait;
    CallingRuns(s);
    QueueFact(s, id);
    var q := QueueOf(s, id);
    if q.msgs != [] {
      assert q.sent == (q.got + [q.msgs[0]]) + q.msgs[1..];
      TurnCovered(s, id, q.(msgs := q.msgs[1..], got := q.got + [q.msgs[0]]), RecvList(id), SendList(id));
    } else if timeout.NoWait? {
      LeaveCovered(s);
    } else {
      WaitCovered(s, RecvQueue(id, timeout));
    }
  }

  lemma AllocCovered(s: State, id: nat, timeout: Timeout)
    requires Sound(s) && NoneLost(s) && MayCall(s, timeout)
    requires s.k.nest == 0 && Watching(Cur(s)) ==> WaitList(Cur(s).pc.call) == PoolList(id) && !timeout.NoWait?
    ensures NoneLost(PoolAlloc(s, id, timeout).0)
  {
    hide Whole, MutexesGood, ObjectsGood, Leave, Wait;
    CallingRuns(s);
    var p := PoolOf(s, id);
    if p.free != 0 {
      LeaveMono(s, PoolList(id));
      LeaveObjects(s);
      var s' := PoolAlloc(s, id, timeout).0;
      forall l | Watched(l) ensures Covered(s', l) {
        assert Covered(s, l);
        if l != PoolList(id) {
          assert Mono(s.k, Leave(s).k, l);
          MonoCovered(s, s', l);
        }
      }
    } else if timeout.NoWait? {
      LeaveCovered(s);
    } else {
      WaitCovered(s, AllocPool(id, timeout));
    }
  }

  lemma FreeCovered(s: State, id: nat)
    requires Sound(s) && NoneLost(s)
    ensures NoneLost(PoolFree(s, id))
  {
    hide Whole, MutexesGood, ObjectsGood, WakeOne;
    var p := PoolOf(s, id).(free := PoolOf(s, id).free + 1);
    var s1 := s.(pools := s.pools[id := p]);
    PoolsSound(s, id, p);
    forall m | Watched(m) && m != PoolList(id) ensures Covered(s1, m) { assert Covered(s, m); }
    assert Covered(s, PoolList(id));
    WakeOneCovered(s1, s1, PoolList(id));
  }

  // ----- The other steps

  lemma RescheduledMono(s: State, k: Core)
    requires Whole(k) && AllMono(s.k, k)
    ensures AllMono(s.k, Schedule(k))
  {
    hide Whole, AllMono;
    ScheduleMono(k);
    MonoTwice(s.k, k, Schedule(k));
  }

  // Calls that do not touch queues and pools.
  ghost predicate Calm(s: State, s': State) {
    AllMono(s.k, s'.k) && s'.queues == s.queues && s'.pools == s.pools
  }

  lemma SemTakeCalm(s: State, id: nat, timeout: Timeout)
    requires Sound(s) && MayCall(s, timeout) && (s.k.nest == 0 ==> Cur(s).pc == Outside)
    ensures Calm(s, SemTake(s, id, timeout).0)
  {
    hide Whole, MutexesGood, ObjectsGood, Wait;
    CallingRuns(s);
    WaitObjects(s, TakeSem(id, timeout));
    if SemOf(s, id).val <= 0 && !timeout.NoWait? { WaitMono(s, TakeSem(id, timeout)); }
  }

  lemma WaitObjects(s: State, call: Call)
    requires !call.DelayFor?
    ensures Wait(s, call).queues == s.queues && Wait(s, call).pools == s.pools
  {
  }

  lemma SemReleaseCalm(s: State, id: nat)
    requires Sound(s)
    ensures Calm(s, SemRelease(s, id))
  {
    hide Linked, BitsOk, ThreadOk, MutexesGood, ObjectsGood, AllMono;
    if Q(s.k, SemList(id)) == [] {
      SelfMono(s.k);
    } else {
      var h := Q(s.k, SemList(id))[0];
      OnWait(s.k, h, SemList(id));
      AwakenWhole(s.k, h);
      AwakenMono(s.k, h, EOK);
      RescheduledMono(s, Awaken(s.k, h, EOK));
    }
  }

  lemma SelfMono(k: Core)
    ensures AllMono(k, k)
  {
  }

  lemma LockCalm(s: State, id: nat, timeout: Timeout)
    requires Sound(s) && MayCall(s, timeout) && Cur(s).pc == Outside
    ensures Calm(s, MutexLock(s, id, timeout).0)
  {
    hide Whole, MutexesGood, ObjectsGood, Wait, Boost, AllMono;
    CallingRuns(s);
    match MutexOf(s, id).owner {
      case None => SelfMono(s.k);
      case Thread(o) =>
        if o == s.k.cur {
          SelfMono(s.k);
        } else {
          var s1 := Boost(s, id, o);
          BoostSound(s, id, o);
          BoostKeeps(s, id, o);
          BoostCalm(s, id, o);
          if !timeout.NoWait? {
            WaitMono(s1, LockMutex(id, timeout));
            WaitObjects(s1, LockMutex(id, timeout));
            MonoTwice(s.k, s1.k, Wait(s1, LockMutex(id, timeout)).k);
          }
        }
    }
  }

  lemma BoostCalm(s: State, id: nat, o: Tid)
    requires Repriced(s.k, Boost(s, id, o).k, o)
    ensures Calm(s, Boost(s, id, o))
  {
    hide ChangePrio;
    RepricedMono(s.k, Boost(s, id, o).k, o);
  }

  lemma RepricedMono(k: Core, k': Core, t: Tid)
    requires Repriced(k, k', t)
    ensures AllMono(k, k')
  {
    OneMono(k, k', t);
  }

  lemma UnlockCalm(s: State, id: nat)
    requires Sound(s) && Cur(s).pc == Outside && Cur(s).stat == Running
    ensures Calm(s, MutexUnlock(s, id).0)
  {
    hide Whole, MutexesGood, ObjectsGood, AllMono, Released, GiveUp;
    CallingRuns(s);
    SelfMono(s.k);
    if MutexOf(s, id).owner == Thread(s.k.cur) {
      var s1 := GiveUp(s, id);
      GiveUpReleased(s, id);
      RepricedMono(s.k, s1.k, s.k.cur);
      GiveUpObjects(s, id);
      if Q(s1.k, MutexList(id)) != [] {
        var h := Q(s1.k, MutexList(id))[0];
        OnWait(s1.k, h, MutexList(id));
        AwakenWhole(s1.k, h);
        AwakenMono(s1.k, h, EOK);
        MonoTwice(s.k, s1.k, Awaken(s1.k, h, EOK));
        RescheduledMono(s, Awaken(s1.k, h, EOK));
      }
    }
  }

  lemma GiveUpObjects(s: State, id: nat)
    ensures GiveUp(s, id).queues == s.queues && GiveUp(s, id).pools == s.pools
  {
  }

  lemma {:induction false} WalkCalmly(s: State, id: nat, rest: seq<Tid>)
    requires Walking(s, id, rest)
    ensures Calm(s, EventWalk(s, id, rest))
    decreases |rest|
  {
    hide Walking, AllMono, Satisfied;
    if rest == [] {
      SelfMono(s.k);
    } else {
      var c := T(s.k, rest[0]);
      if Satisfied(EventOf(s, id), c.mask, c.every) {
        var s1 := s.(events := s.events[id := EventOf(s, id) - c.mask], k := Awaken(s.k, rest[0], c.error));
        WalkWake(s, id, rest);
        WalkMono(s, id, rest);
        WalkCalmly(s1, id, rest[1..]);
        MonoTwice(s.k, s1.k, EventWalk(s, id, rest).k);
      } else {
        WalkSkip(s, id, rest);
        WalkCalmly(s, id, rest[1..]);
      }
    }
  }

  lemma WalkMono(s: State, id: nat, rest: seq<Tid>)
    requires Walking(s, id, rest) && rest != []
    ensures AllMono(s.k, Awaken(s.k, rest[0], T(s.k, rest[0]).error))
  {
    hide Whole, AllMono;
    OnWait(s.k, rest[0], EventList(id));
    AwakenMono(s.k, rest[0], T(s.k, rest[0]).error);
  }

  lemma EventSendCalm(s: State, id: nat, bits: set<nat>)
    requires Sound(s)
    ensures Calm(s, EventSend(s, id, bits))
  {
    hide Whole, MutexesGood, ObjectsGood, Walking, AllMono;
    var s1 := s.(events := s.events[id := EventOf(s, id) + bits]);
    WalkStart(s, id, bits);
    WalkCalmly(s1, id, Q(s.k, EventList(id)));
    WalkGood(s1, id, Q(s.k, EventList(id)));
    RescheduledMono(s, EventWalk(s1, id, Q(s.k, EventList(id))).k);
  }

  lemma EventRecvCalm(s: State, id: nat, mask: set<nat>, every: bool, timeout: Timeout)
    requires Sound(s) && MayCall(s, timeout) && (s.k.nest == 0 ==> Cur(s).pc == Outside)
    ensures Calm(s, EventRecv(s, id, mask, every, timeout).0)
  {
    hide Whole, MutexesGood, ObjectsGood, Wait, Put, AllMono;
    CallingRuns(s);
    var c := Cur(s).(mask := mask, every := every);
    var s1 := s.(k := Put(s.k, s.k.cur, c));
    MaskSound(s, mask, every);
    PutOnly(s.k, s.k.cur, c);
    OneMono(s.k, s1.k, s.k.cur);
    if !Satisfied(EventOf(s, id), mask, every) && !timeout.NoWait? {
      WaitMono(s1, RecvEvent(id, timeout));
      WaitObjects(s1, RecvEvent(id, timeout));
      MonoTwice(s.k, s1.k, Wait(s1, RecvEvent(id, timeout)).k);
    }
  }

  lemma JoinCalm(s: State, t: Tid, timeout: Timeout)
    requires Sound(s) && MayCall(s, timeout) && (s.k.nest == 0 ==> Cur(s).pc == Outside)
    ensures Calm(s, ThreadJoin(s, t, timeout).0)
  {
    hide Whole, MutexesGood, ObjectsGood, Wait, AllMono;
    CallingRuns(s);
    SelfMono(s.k);
    if t != s.k.cur && T(s.k, t).stat != Dead && !timeout.NoWait? {
      WaitMono(s, JoinThread(t, timeout));
      WaitObjects(s, JoinThread(t, timeout));
    }
  }

  lemma DelayCalm(s: State, n: nat)
    requires Sound(s) && Calling(s)
    ensures Calm(s, ThreadDelay(s, n))
  {
    hide Linked, BitsOk, MutexesGood, ObjectsGood, AllMono;
    CallingRuns(s);
    DelayStartOk(s.k, n);
    OneMono(s.k, DelayStart(s.k, n), s.k.cur);
    RescheduledMono(s, DelayStart(s.k, n));
  }

  lemma YieldCalm(s: State)
    requires Sound(s)
    ensures Calm(s, ThreadYield(s))
  {
    hide Linked, BitsOk, ObjectsGood, MutexesGood, AllMono;
    var c := Cur(s).(yielding := true);
    PutWhole(s.k, s.k.cur, c);
    PutOnly(s.k, s.k.cur, c);
    OneMono(s.k, Put(s.k, s.k.cur, c), s.k.cur);
    RescheduledMono(s, Put(s.k, s.k.cur, c));
  }

  lemma ResumeCalm(s: State, t: Tid)
    requires Sound(s) && t in s.k.tcb
    ensures Calm(s, ThreadResume(s, t).0)
  {
    hide Linked, BitsOk, ObjectsGood, MutexesGood, AllMono;
    SelfMono(s.k);
    if T(s.k, t).stat == Suspend {
      ResumeOk(s.k, t);
      var k := AddTail(Put(s.k, t, T(s.k, t).(stat := Ready)), t);
      OneMono(s.k, k, t);
      RescheduledMono(s, k);
    }
  }

  lemma RetireMono(k: Core, t: Tid, st: Stat)
    requires Whole(k) && t in k.tcb && t != k.idle && (st == Suspend || st == Dead)
    requires st == Dead ==> forall l | Watched(l) :: !IsWoken(T(k, t), l)
    ensures AllMono(k, Retire(k, t, st))
  {
    hide Linked, BitsOk;
    RetireOk(k, t, st);
    LeftMono(k, Retire(k, t, st), t);
  }

  lemma SuspendCalm(s: State, t: Tid)
    requires Sound(s) && t in s.k.tcb && t != s.k.idle
    ensures Calm(s, ThreadSuspend(s, t).0)
  {
    hide Linked, BitsOk, ThreadOk, MutexesGood, ObjectsGood, AllMono, Retire;
    SelfMono(s.k);
    if Taken(s, t) == [] && T(s.k, t).stat != Dead && T(s.k, t).stat != Suspend {
      RetireMono(s.k, t, Suspend);
      RetireGood(s, t);
      RescheduledMono(s, Retire(s.k, t, Suspend));
    }
  }

  lemma {:induction false} WakeAllMono(s: State, t: Tid)
    requires Whole(s.k) && ObjectsGoodBut(s, t) && MutexesGood(s)
    ensures AllMono(s.k, WakeAll(s.k, JoinList(t)))
    decreases |Q(s.k, JoinList(t))|
  {
    hide Whole, MutexesGood, ObjectsGoodBut, AllMono, Awaken;
    var l := JoinList(t);
    if Q(s.k, l) == [] {
      SelfMono(s.k);
    } else {
      var k := Awaken(s.k, Q(s.k, l)[0], EOK);
      WakeAllStep(s, t);
      AwakenMono(s.k, Q(s.k, l)[0], EOK);
      WakeAllMono(s.(k := k), t);
      MonoTwice(s.k, k, WakeAll(k, l));
    }
  }

  lemma AbortCalm(s: State, t: Tid)
    requires Sound(s) && t in s.k.tcb && forall l | Watched(l) :: !IsWoken(T(s.k, t), l)
    ensures Calm(s, ThreadAbort(s, t).0)
  {
    hide Whole, ObjectsGood, MutexesGood, ObjectsGoodBut, Retire, AllMono;
    SelfMono(s.k);
    if T(s.k, t).stat != Dead && !T(s.k, t).essential {
      RetireOther(s.k, t);
      RetireGood(s, t);
      RetireMono(s.k, t, Dead);
      var s1 := s.(k := Retire(s.k, t, Dead));
      WakeAllGood(s1, t);
      WakeAllMono(s1, t);
      MonoTwice(s.k, s1.k, WakeAll(s1.k, JoinList(t)));
      RescheduledMono(s, WakeAll(s1.k, JoinList(t)));
    }
  }

  lemma CreateCalm(s: State, t: Tid, prio: nat, essential: bool)
    requires Sound(s) && t !in s.k.tcb
    ensures Calm(s, ThreadCreate(s, t, prio, essential).0)
  {
    hide Linked, BitsOk, ThreadOk, MutexesGood, ObjectsGood;
    if prio < PRIOS {
      var k := Create(s.k, t, prio, essential);
      CreateOk(s.k, t, prio, essential);
      forall l | Watched(l) ensures Mono(s.k, k, l) {
        assert Q(k, l) == Q(s.k, l);
        forall x | x in Woken(s.k, l) ensures x in Woken(k, l) { assert T(k, x) == T(s.k, x); }
      }
      RescheduledMono(s, k);
    }
  }

  lemma FlagsMono(k: Core, asked: bool, nest: nat)
    ensures AllMono(k, k.(asked := asked, nest := nest))
  {
    var k' := k.(asked := asked, nest := nest);
    forall l | Watched(l) ensures Mono(k, k', l) {
      assert Q(k', l) == Q(k, l);
      forall x | x in Woken(k, l) ensures x in Woken(k', l) { assert T(k', x) == T(k, x); }
    }
  }

  lemma EnterCalm(s: State)
    ensures Calm(s, EnterIrq(s))
  {
    hide AllMono;
    FlagsMono(s.k, s.k.asked, s.k.nest + 1);
  }

  lemma ExitCalm(s: State)
    requires Sound(s) && s.k.nest > 0
    ensures Calm(s, ExitIrq(s))
  {
    hide Whole, ObjectsGood, MutexesGood, AllMono;
    var n := s.k.nest - 1;
    FlagsMono(s.k, s.k.asked, n);
    if n == 0 && s.k.asked {
      var k := s.k.(asked := false, nest := 0);
      FlagsMono(s.k, false, 0);
      FlagsWhole(s.k, false, 0);
      assert k == s.k.(nest := 0).(asked := false);
      ScheduleMono(k);
      MonoTwice(s.k, k, ScheduleCore(k));
    }
  }

  lemma TimerCalm(s: State, t: Tid)
    requires Sound(s) && s.k.nest > 0 && t in s.k.tcb && T(s.k, t).timer != Disarmed
    ensures Calm(s, TimerFires(s, t))
  {
    hide Whole, ObjectsGood, MutexesGood, AllMono, Awaken;
    var e: Ending := if T(s.k, t).timer == PendTimer then ETIMEOUT else T(s.k, t).error;
    TimerSound(s, t);
    TimerWhole(s.k, t, e);
    AwakenMono(s.k, t, e);
    RescheduledMono(s, Awaken(s.k, t, e));
  }

  lemma TimerWhole(k: Core, t: Tid, e: Ending)
    requires Whole(k) && t in k.tcb && T(k, t).stat == Block
    ensures Whole(Awaken(k, t, e))
  {
    AwakenOk(k, t, e);
  }

  lemma ReturnCovered(s: State)
    requires Sound(s) && NoneLost(s) && s.k.nest == 0 && Cur(s).pc.Inside?
    ensures NoneLost(Return(s).0)
  {
    hide Linked, BitsOk, ObjectsGood, MutexesGood, NoneLost, QueueSend, QueueRecv, PoolAlloc, Leave;
    CallingRuns(s);
    match Cur(s).pc {
      case Outside =>
      case Inside(call) =>
        match call
        case SendQueue(id, msg, timeout) => if Cur(s).error == ETIMEOUT { LeaveCovered(s); } else { SendCovered(s, id, msg, timeout); }
        case RecvQueue(id, timeout) => if Cur(s).error == ETIMEOUT { LeaveCovered(s); } else { RecvCovered(s, id, timeout); }
        case AllocPool(id, timeout) => if Cur(s).error == ETIMEOUT { LeaveCovered(s); } else { AllocCovered(s, id, timeout); }
        case _ => LeaveCovered(s);
    }
  }

  // Every step loses no wake-up.
  lemma StepCovered(s: State, op: Op)
    requires Sound(s) && NoneLost(s) && Legal(s, op) && Spares(s, op)
    ensures NoneLost(Step(s, op).0)
  {
    hide Sound, NoneLost, AllMono, SemTake, SemRelease, MutexLock, MutexUnlock, QueueSend, QueueRecv, PoolAlloc, PoolFree,
      EventSend, EventRecv,
      ThreadJoin, ThreadDelay, ThreadYield, ThreadSuspend, ThreadResume, ThreadAbort, ThreadCreate, EnterIrq, ExitIrq, TimerFires, Return;
    var s' := Step(s, op).0;
    match op {
      case OpSend(id, msg, timeout) => SendCovered(s, id, msg, timeout);
      case OpRecv(id, timeout) => RecvCovered(s, id, timeout);
      case OpAlloc(id, timeout) => AllocCovered(s, id, timeout);
      case OpFree(id) => FreeCovered(s, id);
      case OpReturn => ReturnCovered(s);
      case _ =>
        CalmStep(s, op);
        AllCovered(s, s');
    }
  }

  lemma CalmStep(s: State, op: Op)
    requires Sound(s) && Legal(s, op) && Spares(s, op)
    requires !op.OpSend? && !op.OpRecv? && !op.OpAlloc? && !op.OpFree? && !op.OpReturn?
    ensures Calm(s, Step(s, op).0)
  {
    hide Sound, AllMono, SemTake, SemRelease, MutexLock, MutexUnlock, QueueSend, QueueRecv, PoolAlloc, PoolFree, EventSend,
      EventRecv,
      ThreadJoin, ThreadDelay, ThreadYield, ThreadSuspend, ThreadResume, ThreadAbort, ThreadCreate, EnterIrq, ExitIrq, TimerFires, Return;
    match op {
      case OpSemTake(id, timeout) => SemTakeCalm(s, id, timeout);
      case OpSemRelease(id) => SemReleaseCalm(s, id);
      case OpLock(id, timeout) => LockCalm(s, id, timeout);
      case OpUnlock(id) => UnlockCalm(s, id);
      case OpEventSend(id, bits) => EventSendCalm(s, id, bits);
      case OpEventRecv(id, mask, every, timeout) => EventRecvCalm(s, id, mask, every, timeout);
      case OpJoin(t, timeout) => JoinCalm(s, t, timeout);
      case OpDelay(n) => DelayCalm(s, n);
      case OpYield => YieldCalm(s);
      case OpSuspend(t) => SuspendCalm(s, t);
      case OpResume(t) => ResumeCalm(s, t);
      case OpAbort(t) => AbortCalm(s, t);
      case OpCreate(t, prio, essential) => CreateCalm(s, t, prio, essential);
      case OpEnter => EnterCalm(s);
      case OpExit => ExitCalm(s);
      case OpTimer(t) => TimerCalm(s, t);
      case OpSlice(t) => SliceCalm(s, t);
    }
  }

  lemma SliceCalm(s: State, t: Tid)
    requires Sound(s)
    ensures Calm(s, SliceTimeout(s, t))
  {
    hide Whole, ObjectsGood, MutexesGood, AllMono, ThreadYield;
    SelfMono(s.k);
    YieldCalm(s);
  }
}
