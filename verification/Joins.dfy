// The end of a thread: for good, and what a join that returns says about it.
module Joins {
  import opened BitOps
  import opened KernelCore
  import opened Ipc
  import opened Runs

  ghost predicate Gone(k: Core, t: Tid) { t in k.tcb && T(k, t).stat == Dead }

  // x is out of its wait in a join, with EOK and not by suspension, though the thread joined lives.
  ghost predicate Misled(k: Core, x: Tid) {
    var c := T(k, x);
    && x in k.tcb && c.pc.Inside? && c.pc.call.JoinThread? && c.stat != Block && c.stat != Dead && !c.cut && c.error == EOK
    && !Gone(k, c.pc.call.id)
  }

  ghost predicate Honest(k: Core) { forall x :: !Misled(k, x) }

  // Nobody comes back from the dead, and nobody else is misled.
  ghost predicate Onward(k: Core, k': Core) {
    && (forall t {:trigger Gone(k', t)} :: Gone(k, t) ==> Gone(k', t))
    && (forall x {:trigger Misled(k', x)} :: Misled(k', x) ==> Misled(k, x))
  }

  lemma OnwardTwice(k: Core, k1: Core, k2: Core)
    requires Onward(k, k1) && Onward(k1, k2)
    ensures Onward(k, k2)
  {
    hide Gone, Misled;
    forall t | Gone(k, t) ensures Gone(k2, t) { assert Gone(k1, t); }
    forall x | Misled(k2, x) ensures Misled(k, x) { assert Misled(k1, x); }
  }

  // ----- The changes steps are made of

  lemma SideOnward(k: Core, k': Core)
    requires SameSide(k, k')
    ensures Onward(k, k')
  {
    assert forall x :: Alike(T(k, x), T(k', x));
  }

  lemma ScheduleOnward(k: Core)
    requires Whole(k)
    ensures Onward(k, Schedule(k)) && Whole(Schedule(k))
  {
    hide Whole, SameSide;
    ScheduleOk(k);
    SideOnward(k, Schedule(k));
  }

  // One thread changes: the dead stay dead, and it is not misled unless it was.
  lemma OneOnward(k: Core, k': Core, t: Tid)
    requires k'.tcb.Keys == k.tcb.Keys && (forall x {:trigger T(k', x)} :: x != t ==> T(k', x) == T(k, x))
    requires (Gone(k, t) ==> T(k', t).stat == Dead) && (Misled(k', t) ==> Misled(k, t))
    ensures Onward(k, k')
  {
    forall x | Gone(k, x) ensures Gone(k', x) { assert x != t ==> T(k', x) == T(k, x); }
    forall x | Misled(k', x) ensures Misled(k, x) {
      assert x != t ==> T(k', x) == T(k, x);
      var u := T(k', x).pc.call.id;
      assert Gone(k, u) ==> Gone(k', u) by { assert u != t ==> T(k', u) == T(k, u); }
    }
  }

  lemma PutOnward(k: Core, t: Tid, c: Tcb)
    requires t in k.tcb && c.stat == T(k, t).stat && (c.pc == Outside || (c.pc == T(k, t).pc && c.cut == T(k, t).cut && c.error == T(k, t).error))
    ensures Onward(k, Put(k, t, c))
  {
    var k' := Put(k, t, c);
    assert forall x :: x != t ==> T(k', x) == T(k, x);
    OneOnward(k, k', t);
  }

  lemma AwakenOnward(k: Core, t: Tid, e: Ending)
    requires Whole(k) && t in k.tcb && T(k, t).stat == Block
    requires T(k, t).pc.call.JoinThread? ==> e == ETIMEOUT || Gone(k, T(k, t).pc.call.id)
    ensures Onward(k, Awaken(k, t, e)) && Whole(Awaken(k, t, e))
  {
    hide Linked, BitsOk, ThreadOk, Awaken;
    AwakenOk(k, t, e);
    var k' := Awaken(k, t, e);
    if T(k, t).pc.Inside? && T(k, t).pc.call.JoinThread? {
      var u := T(k, t).pc.call.id;
      assert u != t ==> T(k', u) == T(k, u);
    }
    OneOnward(k, k', t);
  }

  lemma RetireOnward(k: Core, t: Tid, st: Stat)
    requires Whole(k) && t in k.tcb && t != k.idle && (st == Suspend || st == Dead) && T(k, t).stat != Dead
    ensures Onward(k, Retire(k, t, st)) && Whole(Retire(k, t, st)) && (st == Dead ==> Gone(Retire(k, t, st), t))
  {
    hide Linked, BitsOk, ThreadOk, Retire;
    RetireOk(k, t, st);
    var k' := Retire(k, t, st);
    if Misled(k', t) {
      var u := T(k, t).pc.call.id;
      assert u != t ==> T(k', u) == T(k, u);
    }
    OneOnward(k, k', t);
  }

  lemma WaitOnward(s: State, call: Call)
    requires Good(s) && MayWait(s, call)
    ensures Onward(s.k, Wait(s, call).k)
  {
    hide Linked, BitsOk, ThreadOk, ObjectsGood, MutexesGood, Pend, Schedule;
    PendOk(s.k, call);
    OneOnward(s.k, Pend(s.k, call), s.k.cur);
    ScheduleOnward(Pend(s.k, call));
    OnwardTwice(s.k, Pend(s.k, call), Wait(s, call).k);
  }

  // The first waiter of a list other than a join's is woken, and the scheduler runs.
  lemma WakeOnward(k: Core, l: ListId)
    requires Whole(k) && Q(k, l) != [] && !l.ReadyList? && !l.JoinList?
    ensures Onward(k, Schedule(Awaken(k, Q(k, l)[0], EOK)))
  {
    hide Whole, Onward, Awaken, Schedule;
    OnWait(k, Q(k, l)[0], l);
    AwakenOnward(k, Q(k, l)[0], EOK);
    ScheduleOnward(Awaken(k, Q(k, l)[0], EOK));
    OnwardTwice(k, Awaken(k, Q(k, l)[0], EOK), Schedule(Awaken(k, Q(k, l)[0], EOK)));
  }

  lemma SameOnward(k: Core)
    ensures Onward(k, k)
  {
  }

  // ----- Steps

  lemma TakesOnward(s: State, id: nat, timeout: Timeout)
    requires Sound(s) && MayCall(s, timeout)
    ensures Onward(s.k, SemTake(s, id, timeout).0.k)
  {
    hide Whole, ObjectsGood, MutexesGood, Onward, Wait;
    CallingRuns(s);
    SameOnward(s.k);
    if SemOf(s, id).val <= 0 && !timeout.NoWait? { WaitOnward(s, TakeSem(id, timeout)); }
  }

  lemma ReleaseOnward(s: State, id: nat)
    requires Sound(s)
    ensures Onward(s.k, SemRelease(s, id).k)
  {
    hide Whole, ObjectsGood, MutexesGood, Onward, Awaken, Schedule;
    SameOnward(s.k);
    if Q(s.k, SemList(id)) != [] { WakeOnward(s.k, SemList(id)); }
  }

  lemma BoostOnward(s: State, id: nat, o: Tid)
    requires Good(s) && MutexOf(s, id).owner == Thread(o)
    ensures Onward(s.k, Boost(s, id, o).k)
  {
    hide Whole, ObjectsGood, MutexesGood, Boost;
    BoostGood(s, id, o);
    var k' := Boost(s, id, o).k;
    if Misled(k', o) {
      var u := T(s.k, o).pc.call.id;
      assert u != o ==> T(k', u) == T(s.k, u);
    }
    OneOnward(s.k, k', o);
  }

  lemma LockOnward(s: State, id: nat, timeout: Timeout)
    requires Sound(s) && MayCall(s, timeout) && Cur(s).pc == Outside
    ensures Onward(s.k, MutexLock(s, id, timeout).0.k)
  {
    hide Whole, ObjectsGood, MutexesGood, Onward, Wait, Boost, Urgent;
    CallingRuns(s);
    SameOnward(s.k);
    match MutexOf(s, id).owner {
      case None =>
      case Thread(o) =>
        if o != s.k.cur {
          BoostOnward(s, id, o);
          BoostSound(s, id, o);
          BoostKeeps(s, id, o);
          if !timeout.NoWait? {
            WaitOnward(Boost(s, id, o), LockMutex(id, timeout));
            OnwardTwice(s.k, Boost(s, id, o).k, Wait(Boost(s, id, o), LockMutex(id, timeout)).k);
          }
        }
    }
  }

  lemma UnlockOnward(s: State, id: nat)
    requires Sound(s) && Cur(s).pc == Outside && Cur(s).stat == Running
    ensures Onward(s.k, MutexUnlock(s, id).0.k)
  {
    hide Whole, ObjectsGood, MutexesGood, Released, Onward, Awaken, Schedule, LeastPrio;
    CallingRuns(s);
    SameOnward(s.k);
    if MutexOf(s, id).owner == Thread(s.k.cur) {
      GiveUpReleased(s, id);
      var s1 := GiveUp(s, id);
      PutOnward(s.k, s.k.cur, Cur(s1));
      if Q(s1.k, MutexList(id)) != [] {
        WakeOnward(s1.k, MutexList(id));
        OnwardTwice(s.k, s1.k, Schedule(Awaken(s1.k, Q(s1.k, MutexList(id))[0], EOK)));
      }
    }
  }

  lemma LeaveOnward(s: State)
    requires Sound(s)
    ensures Onward(s.k, Leave(s).k)
  {
    hide Whole, ObjectsGood, MutexesGood, Onward;
    CallingRuns(s);
    SameOnward(s.k);
    if s.k.nest == 0 { PutOnward(s.k, s.k.cur, Cur(s).(pc := Outside)); }
  }

  lemma WakeOneOnward(s: State, l: ListId)
    requires Whole(s.k) && !l.ReadyList? && !l.JoinList?
    ensures Onward(s.k, WakeOne(s, l).k)
  {
    hide Whole, Onward, Awaken, Schedule;
    SameOnward(s.k);
    if Q(s.k, l) != [] { WakeOnward(s.k, l); }
  }

  lemma StoredOnward(s: State, s1: State, l: ListId)
    requires Sound(s) && (s.k.nest == 0 ==> s.k.cur != s.k.idle) && s1.k == Leave(s).k && !l.ReadyList? && !l.JoinList?
    ensures Onward(s.k, WakeOne(s1, l).k)
  {
    hide Whole, ObjectsGood, MutexesGood, Onward, WakeOne, Leave;
    LeaveOnward(s);
    LeaveSound(s);
    WakeOneOnward(s1, l);
    OnwardTwice(s.k, s1.k, WakeOne(s1, l).k);
  }

  lemma QueueOnward(s: State, id: nat, msg: nat, timeout: Timeout)
    requires Sound(s) && MayCall(s, timeout)
    ensures Onward(s.k, QueueSend(s, id, msg, timeout).0.k) && Onward(s.k, QueueRecv(s, id, timeout).0.k)
  {
    hide Whole, ObjectsGood, MutexesGood, Onward, Wait, WakeOne, Leave;
    CallingRuns(s);
    LeaveOnward(s);
    if !timeout.NoWait? {
      WaitOnward(s, SendQueue(id, msg, timeout));
      WaitOnward(s, RecvQueue(id, timeout));
    }
    var q := QueueOf(s, id);
    StoredOnward(s, Leave(s).(queues := s.queues[id := q.(msgs := q.msgs + [msg], sent := q.sent + [msg])]), RecvList(id));
    if q.msgs != [] {
      StoredOnward(s, Leave(s).(queues := s.queues[id := q.(msgs := q.msgs[1..], got := q.got + [q.msgs[0]])]), SendList(id));
    }
  }

  lemma AllocOnward(s: State, id: nat, timeout: Timeout)
    requires Sound(s) && MayCall(s, timeout)
    ensures Onward(s.k, PoolAlloc(s, id, timeout).0.k)
  {
    hide Whole, ObjectsGood, MutexesGood, Onward, Wait, Leave;
    CallingRuns(s);
    LeaveOnward(s);
    if !timeout.NoWait? { WaitOnward(s, AllocPool(id, timeout)); }
  }

  lemma {:induction false} WalkOnward(s: State, id: nat, rest: seq<Tid>)
    requires Walking(s, id, rest)
    ensures Onward(s.k, EventWalk(s, id, rest).k)
    decreases |rest|
  {
    hide Walking, Onward, Satisfied, Awaken;
    SameOnward(s.k);
    if rest != [] {
      var c := T(s.k, rest[0]);
      if Satisfied(EventOf(s, id), c.mask, c.every) {
        var s1 := s.(events := s.events[id := EventOf(s, id) - c.mask], k := Awaken(s.k, rest[0], c.error));
        WalkWake(s, id, rest);
        VisitOnward(s, id, rest);
        WalkOnward(s1, id, rest[1..]);
        OnwardTwice(s.k, s1.k, EventWalk(s1, id, rest[1..]).k);
      } else {
        WalkSkip(s, id, rest);
        WalkOnward(s, id, rest[1..]);
      }
    }
  }

  lemma VisitOnward(s: State, id: nat, rest: seq<Tid>)
    requires Walking(s, id, rest) && rest != []
    ensures Onward(s.k, Awaken(s.k, rest[0], T(s.k, rest[0]).error))
  {
    hide Whole, Onward, Awaken;
    OnWait(s.k, rest[0], EventList(id));
    AwakenOnward(s.k, rest[0], T(s.k, rest[0]).error);
  }

  lemma EventSendOnward(s: State, id: nat, bits: set<nat>)
    requires Sound(s)
    ensures Onward(s.k, EventSend(s, id, bits).k)
  {
    hide Whole, ObjectsGood, MutexesGood, Walking, Onward, EventWalk, Schedule;
    var s1, q := s.(events := s.events[id := EventOf(s, id) + bits]), Q(s.k, EventList(id));
    WalkStart(s, id, bits);
    WalkOnward(s1, id, q);
    WalkGood(s1, id, q);
    ScheduleOnward(EventWalk(s1, id, q).k);
    OnwardTwice(s.k, EventWalk(s1, id, q).k, EventSend(s, id, bits).k);
  }

  lemma EventRecvOnward(s: State, id: nat, mask: set<nat>, every: bool, timeout: Timeout)
    requires Sound(s) && MayCall(s, timeout)
    ensures Onward(s.k, EventRecv(s, id, mask, every, timeout).0.k)
  {
    hide Whole, ObjectsGood, MutexesGood, Onward, Wait, Urgent;
    CallingRuns(s);
    MaskSound(s, mask, every);
    var s1 := s.(k := Put(s.k, s.k.cur, Cur(s).(mask := mask, every := every)));
    PutOnward(s.k, s.k.cur, Cur(s1));
    if !Satisfied(EventOf(s, id), mask, every) && !timeout.NoWait? {
      WaitOnward(s1, RecvEvent(id, timeout));
      OnwardTwice(s.k, s1.k, Wait(s1, RecvEvent(id, timeout)).k);
    }
  }

  lemma JoinOnward(s: State, t: Tid, timeout: Timeout)
    requires Sound(s) && MayCall(s, timeout)
    ensures Onward(s.k, ThreadJoin(s, t, timeout).0.k)
  {
    hide Whole, ObjectsGood, MutexesGood, Onward, Wait;
    CallingRuns(s);
    SameOnward(s.k);
    if t != s.k.cur && T(s.k, t).stat != Dead && !timeout.NoWait? { WaitOnward(s, JoinThread(t, timeout)); }
  }

  lemma DelayOnward(s: State, n: nat)
    requires Sound(s) && Calling(s)
    ensures Onward(s.k, ThreadDelay(s, n).k)
  {
    hide Linked, BitsOk, ThreadOk, ObjectsGood, MutexesGood, DelayStart, Schedule;
    CallingRuns(s);
    DelayStartOk(s.k, n);
    OneOnward(s.k, DelayStart(s.k, n), s.k.cur);
    ScheduleOnward(DelayStart(s.k, n));
    OnwardTwice(s.k, DelayStart(s.k, n), ThreadDelay(s, n).k);
  }

  lemma YieldOnward(s: State)
    requires Sound(s)
    ensures Onward(s.k, ThreadYield(s).k)
  {
    hide Whole, ObjectsGood, MutexesGood, Onward, Schedule;
    CallingRuns(s);
    var c := Cur(s).(yielding := true);
    PutWhole(s.k, s.k.cur, c);
    PutOnward(s.k, s.k.cur, c);
    ScheduleOnward(Put(s.k, s.k.cur, c));
    OnwardTwice(s.k, Put(s.k, s.k.cur, c), ThreadYield(s).k);
  }

  lemma ResumeOnward(s: State, t: Tid)
    requires Sound(s) && t in s.k.tcb
    ensures Onward(s.k, ThreadResume(s, t).0.k)
  {
    hide Linked, BitsOk, ThreadOk, ObjectsGood, MutexesGood, Schedule, AddTail;
    SameOnward(s.k);
    if T(s.k, t).stat == Suspend {
      ResumeOk(s.k, t);
      var k := AddTail(Put(s.k, t, T(s.k, t).(stat := Ready)), t);
      if Misled(k, t) {
        var u := T(s.k, t).pc.call.id;
        assert u != t ==> T(k, u) == T(s.k, u);
      }
      OneOnward(s.k, k, t);
      ScheduleOnward(k);
      OnwardTwice(s.k, k, Schedule(k));
    }
  }

  lemma SuspendOnward(s: State, t: Tid)
    requires Sound(s) && t in s.k.tcb && t != s.k.idle
    ensures Onward(s.k, ThreadSuspend(s, t).0.k)
  {
    hide Whole, ObjectsGood, MutexesGood, Onward, Schedule, Retire;
    SameOnward(s.k);
    if T(s.k, t).stat != Dead {
      RetireOnward(s.k, t, Suspend);
      ScheduleOnward(Retire(s.k, t, Suspend));
      OnwardTwice(s.k, Retire(s.k, t, Suspend), Schedule(Retire(s.k, t, Suspend)));
    }
  }

  // The joiners of a dead thread are not misled.
  lemma {:induction false} WakeAllOnward(s: State, t: Tid)
    requires Whole(s.k) && ObjectsGoodBut(s, t) && MutexesGood(s) && Gone(s.k, t)
    ensures Onward(s.k, WakeAll(s.k, JoinList(t)))
    decreases |Q(s.k, JoinList(t))|
  {
    hide Whole, ObjectsGoodBut, MutexesGood, Onward, Gone, Awaken;
    var l := JoinList(t);
    SameOnward(s.k);
    if Q(s.k, l) != [] {
      var h := Q(s.k, l)[0];
      var s1 := s.(k := Awaken(s.k, h, EOK));
      OnWait(s.k, h, l);
      AwakenOnward(s.k, h, EOK);
      WakeAllStep(s, t);
      assert Gone(s1.k, t) by { StillGone(s.k, s1.k, t); }
      WakeAllOnward(s1, t);
      OnwardTwice(s.k, s1.k, WakeAll(s1.k, l));
    }
  }

  lemma StillGone(k: Core, k': Core, t: Tid)
    requires Onward(k, k') && Gone(k, t)
    ensures Gone(k', t)
  {
  }

  lemma AbortOnward(s: State, t: Tid)
    requires Sound(s) && t in s.k.tcb
    ensures Onward(s.k, ThreadAbort(s, t).0.k)
  {
    hide Whole, ObjectsGood, MutexesGood, ObjectsGoodBut, Onward, Retire, WakeAll, Schedule;
    SameOnward(s.k);
    if T(s.k, t).stat != Dead && !T(s.k, t).essential {
      RetireOther(s.k, t);
      RetireGood(s, t);
      RetireOnward(s.k, t, Dead);
      var s1 := s.(k := Retire(s.k, t, Dead));
      WakeAllGood(s1, t);
      WakeAllOnward(s1, t);
      var k := WakeAll(s1.k, JoinList(t));
      OnwardTwice(s.k, s1.k, k);
      ScheduleOnward(k);
      OnwardTwice(s.k, k, Schedule(k));
    }
  }

  lemma CreateOnward(s: State, t: Tid, prio: nat, essential: bool)
    requires Sound(s) && t !in s.k.tcb
    ensures Onward(s.k, ThreadCreate(s, t, prio, essential).0.k)
  {
    hide Linked, BitsOk, ThreadOk, ObjectsGood, MutexesGood, Create, Schedule;
    SameOnward(s.k);
    if prio < PRIOS {
      CreateOk(s.k, t, prio, essential);
      var k := Create(s.k, t, prio, essential);
      CreatedOnward(s.k, k, t);
      ScheduleOnward(k);
      OnwardTwice(s.k, k, Schedule(k));
    }
  }

  lemma CreatedOnward(k: Core, k': Core, t: Tid)
    requires t !in k.tcb && k'.tcb.Keys == k.tcb.Keys + {t} && (forall x {:trigger T(k', x)} :: x != t ==> T(k', x) == T(k, x)) && T(k', t).pc == Outside
    ensures Onward(k, k')
  {
    forall x | Gone(k, x) ensures Gone(k', x) { assert T(k', x) == T(k, x); }
    forall x | Misled(k', x) ensures Misled(k, x) {
      assert T(k', x) == T(k, x);
      var u := T(k', x).pc.call.id;
      assert u in k.tcb ==> T(k', u) == T(k, u);
    }
  }

  lemma FlagsOnward(k: Core, asked: bool, nest: nat)
    ensures Onward(k, k.(asked := asked, nest := nest))
  {
    assert forall x :: T(k.(asked := asked, nest := nest), x) == T(k, x);
  }

  lemma ExitOnward(s: State)
    requires Sound(s) && s.k.nest > 0
    ensures Onward(s.k, ExitIrq(s).k)
  {
    hide Whole, ObjectsGood, MutexesGood, Onward, SameSide, ScheduleCore;
    var n := s.k.nest - 1;
    FlagsOnward(s.k, s.k.asked, n);
    if n == 0 && s.k.asked {
      var k := s.k.(asked := false, nest := 0);
      assert k == s.k.(nest := 0).(asked := false);
      FlagsOnward(s.k, false, 0);
      FlagsWhole(s.k, false, 0);
      ScheduleCoreOk(k);
      SideOnward(k, ScheduleCore(k));
      OnwardTwice(s.k, k, ScheduleCore(k));
    }
  }

  lemma TimerOnward(s: State, t: Tid)
    requires Sound(s) && t in s.k.tcb && T(s.k, t).timer != Disarmed
    ensures Onward(s.k, TimerFires(s, t).k)
  {
    hide Linked, BitsOk, ObjectsGood, MutexesGood, Onward, Awaken, Schedule;
    var e: Ending := if T(s.k, t).timer == PendTimer then ETIMEOUT else T(s.k, t).error;
    AwakenOnward(s.k, t, e);
    ScheduleOnward(Awaken(s.k, t, e));
    OnwardTwice(s.k, Awaken(s.k, t, e), TimerFires(s, t).k);
  }

  lemma ReturnOnward(s: State)
    requires Sound(s) && s.k.nest == 0 && Cur(s).pc.Inside?
    ensures Onward(s.k, Return(s).0.k)
  {
    hide Linked, BitsOk, ObjectsGood, MutexesGood, Onward, Leave, QueueSend, QueueRecv, PoolAlloc;
    CallingRuns(s);
    LeaveOnward(s);
    match Cur(s).pc {
      case Outside =>
      case Inside(call) =>
        match call
        case SendQueue(id, msg, timeout) => QueueOnward(s, id, msg, timeout);
        case RecvQueue(id, timeout) => QueueOnward(s, id, 0, timeout);
        case AllocPool(id, timeout) => AllocOnward(s, id, timeout);
        case _ =>
    }
  }

  // No step brings back a dead thread or lets a join return early.
  lemma StepOnward(s: State, op: Op)
    requires Sound(s) && Legal(s, op)
    ensures Onward(s.k, Step(s, op).0.k)
  {
    hide Sound, Onward, SemTake, SemRelease, MutexLock, MutexUnlock, QueueSend, QueueRecv, PoolAlloc, PoolFree, EventSend,
      EventRecv,
      ThreadJoin, ThreadDelay, ThreadYield, ThreadSuspend, ThreadResume, ThreadAbort, ThreadCreate, ExitIrq, TimerFires, Return, WakeOne;
    SameOnward(s.k);
    match op
    case OpSemTake(id, timeout) => TakesOnward(s, id, timeout);
    case OpSemRelease(id) => ReleaseOnward(s, id);
    case OpLock(id, timeout) => LockOnward(s, id, timeout);
    case OpUnlock(id) => UnlockOnward(s, id);
    case OpSend(id, msg, timeout) => QueueOnward(s, id, msg, timeout);
    case OpRecv(id, timeout) => QueueOnward(s, id, 0, timeout);
    case OpAlloc(id, timeout) => AllocOnward(s, id, timeout);
    case OpFree(id) => FreeOnward(s, id);
    case OpEventSend(id, bits) => EventSendOnward(s, id, bits);
    case OpEventRecv(id, mask, every, timeout) => EventRecvOnward(s, id, mask, every, timeout);
    case OpJoin(t, timeout) => JoinOnward(s, t, timeout);
    case OpDelay(n) => DelayOnward(s, n);
    case OpYield => YieldOnward(s);
    case OpSuspend(t) => SuspendOnward(s, t);
    case OpResume(t) => ResumeOnward(s, t);
    case OpAbort(t) => AbortOnward(s, t);
    case OpCreate(t, prio, essential) => CreateOnward(s, t, prio, essential);
    case OpEnter => FlagsOnward(s.k, s.k.asked, s.k.nest + 1);
    case OpExit => ExitOnward(s);
    case OpTimer(t) => TimerOnward(s, t);
    case OpSlice(t) => YieldOnward(s);
    case OpReturn => ReturnOnward(s);
  }

  lemma FreeOnward(s: State, id: nat)
    requires Sound(s)
    ensures Onward(s.k, PoolFree(s, id).k)
  {
    hide ObjectsGood, MutexesGood, Onward, WakeOne, Whole;
    var p := PoolOf(s, id);
    WakeOneOnward(s.(pools := s.pools[id := p.(free := p.free + 1)]), PoolList(id));
  }

  // ----- Runs

  // From the first dispatch on, a dead thread stays dead.
  lemma {:induction false} RunOnward(s: State, ops: seq<Op>)
    requires Sound(s) && Allowed(s, ops)
    ensures Onward(s.k, RunAll(s, ops).k)
    decreases |ops|
  {
    hide Sound, Legal, Step, Onward;
    SameOnward(s.k);
    if ops != [] {
      var s1 := Step(s, ops[0]).0;
      StepSound(s, ops[0]);
      StepOnward(s, ops[0]);
      RunOnward(s1, ops[1..]);
      OnwardTwice(s.k, s1.k, RunAll(s1, ops[1..]).k);
    }
  }

  // In every run, a thread that comes back from a join with EOK, and was not suspended in it, finds the other one dead.
  lemma JoinReturns(prio: nat, o: Setup, ops: seq<Op>)
    requires prio < PRIOS && o.Ok() && Allowed(Boot(prio, o), ops)
    ensures var s := RunAll(Boot(prio, o), ops);
      s.k.nest == 0 && Cur(s).pc.Inside? && Cur(s).pc.call.JoinThread? && Return(s).1 == Done(EOK) && !Cur(s).cut ==> Gone(s.k, Cur(s).pc.call.id)
  {
    hide Good, Allowed, RunAll, Urgent, Onward;
    BootSound(prio, o);
    RunSound(Boot(prio, o), ops);
    RunOnward(Boot(prio, o), ops);
    var s := RunAll(Boot(prio, o), ops);
    CallingRuns(s);
    assert !Misled(s.k, s.k.cur) by { BootHonest(prio, o, s.k, s.k.cur); }
  }

  lemma BootHonest(prio: nat, o: Setup, k: Core, x: Tid)
    requires prio < PRIOS && Onward(Boot(prio, o).k, k)
    ensures !Misled(k, x)
  {
    assert !Misled(Boot(prio, o).k, x);
  }
}
