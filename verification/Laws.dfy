// What the kernel's invariant means for its callers.
module Laws {
  import opened BitOps
  import opened KernelCore
  import opened Ipc

  // Where a thread's status puts its qnode.
  function Place(c: Tcb): Link {
    match c.stat
    case Ready => On(ReadyList(c.prio))
    case Block => if c.pc.Inside? && !c.pc.call.DelayFor? then On(WaitList(c.pc.call)) else Unlinked
    case _ => Unlinked
  }

  // A thread is in exactly the list its status dictates, once; bit p is set exactly when ready list p is not empty.
  lemma Membership(s: State, t: Tid, l: ListId)
    requires Sound(s)
    ensures t in Q(s.k, l) <==> t in s.k.tcb && Place(T(s.k, t)) == On(l)
    ensures NoDup(Q(s.k, l))
    ensures forall p | 0 <= p < PRIOS :: s.k.bits[p] <==> exists x :: x in Q(s.k, ReadyList(p))
  {
    hide ObjectsGood, MutexesGood;
    assert ListOk(s.k, l) && NodeOk(s.k, t);
    forall p | 0 <= p < PRIOS ensures s.k.bits[p] <==> exists x :: x in Q(s.k, ReadyList(p)) {
      assert BitOk(s.k, p);
      if Q(s.k, ReadyList(p)) != [] { assert Q(s.k, ReadyList(p))[0] in Q(s.k, ReadyList(p)); }
    }
  }

  // An armed timer means the thread is blocked in the wait the timer belongs to; every wait begun has ended, but for
  // that of a blocked thread.
  lemma WaitsEndOnce(s: State, t: Tid)
    requires Sound(s) && t in s.k.tcb
    ensures var c := T(s.k, t);
      && (c.timer != Disarmed ==> c.stat == Block)
      && (c.timer == PendTimer ==> c.qnode.On? && t in Q(s.k, c.qnode.l)) && (c.timer == DelayTimer ==> c.qnode == Unlinked)
      && c.begun == c.ended + if c.stat == Block then 1 else 0
  {
    hide ObjectsGood, MutexesGood;
    assert NodeOk(s.k, t);
  }

  // A lock call that comes back owns the mutex exactly if it returns EOK and was not suspended while it waited.
  lemma LockReturns(s: State)
    requires Sound(s) && s.k.nest == 0 && Cur(s).pc.Inside? && Cur(s).pc.call.LockMutex?
    ensures var (s', reply) := Return(s);
      MutexOf(s', Cur(s).pc.call.id).owner == Thread(s.k.cur) <==> reply == Done(EOK) && !Cur(s).cut
  {
    hide Whole, ObjectsGood;
    CallingRuns(s);
    var id := Cur(s).pc.call.id;
    assert LockGood(s, s.k.cur) && MutexGood(s, id) && TakenGood(s, s.k.cur);
  }

  // A mutex is owned by t exactly when it is on t's taken list, and has waiters only while it is owned.
  lemma Ownership(s: State, id: nat, t: Tid)
    requires Sound(s)
    ensures MutexOf(s, id).owner == Thread(t) <==> id in Taken(s, t)
    ensures Q(s.k, MutexList(id)) != [] ==> MutexOf(s, id).owner != None
    ensures t in s.k.tcb ==> T(s.k, t).prio <= T(s.k, t).init && (Taken(s, t) == [] ==> T(s.k, t).prio == T(s.k, t).init)
  {
    hide ObjectsGood;
    assert MutexGood(s, id) && TakenGood(s, t);
  }

  // No unit of a semaphore is lost or made up, and none lies idle while a thread waits.
  lemma Units(s: State, id: nat)
    requires Sound(s)
    ensures var m := SemOf(s, id); m.init + m.released == m.val + m.granted && (m.val > 0 ==> Q(s.k, SemList(id)) == [])
  {
    hide Whole, MutexesGood;
    assert SemGood(s, id);
  }

  // No waiter of an event could be served by the bits that are set.
  lemma NoneOverlooked(s: State, id: nat, t: Tid)
    requires Sound(s) && t in Q(s.k, EventList(id))
    ensures var c := T(s.k, t);
      if c.every then exists b :: b in c.mask && b !in EventOf(s, id) else forall b | b in c.mask :: b !in EventOf(s, id)
  {
    hide Whole, MutexesGood, Satisfied;
    assert EventGood(s, id) && Content(s, id, t);
    SatisfiedMeans(EventOf(s, id), T(s.k, t).mask, T(s.k, t).every);
  }

  // ----- Where the scheduler call is missing

  // Giving up a mutex nobody waits for leaves the most urgent thread running exactly if every ready thread finds, at the
  // owner's initial priority or recorded in a mutex it still holds, a priority as urgent as its own.
  lemma UnlockOmission(s: State, id: nat)
    requires Sound(s) && Calling(s) && Omits(s, OpUnlock(id))
    ensures Optimal(MutexUnlock(s, id).0.k) <==>
              forall x {:trigger T(s.k, x)} | x in s.k.tcb && T(s.k, x).stat == Ready ::
                || Cur(s).init <= T(s.k, x).prio
                || exists h {:trigger MutexOf(s, h)} :: h in Taken(s, s.k.cur) && h != id && MutexOf(s, h).prio <= T(s.k, x).prio
  {
    hide Linked, BitsOk, ThreadOk, ObjectsGood, MutexesGood, Released, GiveUp, MutexUnlock;
    CallingRuns(s);
    GiveUpReleased(s, id);
    UnlockNobody(s, id);
    var k := GiveUp(s, id).k;
    forall x ensures T(s.k, x).prio < T(k, s.k.cur).prio <==> Outranks(s, id, x) { FallenPrio(s, id, x); }
    if Optimal(k) {
      forall x | x in s.k.tcb && T(s.k, x).stat == Ready ensures !Outranks(s, id, x) { assert T(k, x) == T(s.k, x); }
    }
  }

  lemma UnlockNobody(s: State, id: nat)
    requires MutexOf(s, id).owner == Thread(s.k.cur) && Q(s.k, MutexList(id)) == []
    ensures MutexUnlock(s, id).0.k == GiveUp(s, id).k
  {
  }

  lemma FallenPrio(s: State, id: nat, x: Tid)
    requires MutexesGood(s) && MutexOf(s, id).owner == Thread(s.k.cur)
    ensures T(s.k, x).prio < T(GiveUp(s, id).k, s.k.cur).prio <==> Outranks(s, id, x)
  {
    hide MutexesGood;
    var s1 := s.(taken := s.taken[s.k.cur := Minus(Taken(s, s.k.cur), id)]);
    LeastSame(s, s1, Cur(s).init, Taken(s1, s.k.cur));
    FallenTo(s, id, x);
  }

  // An unlock by the owner leaves it at the most urgent of its initial priority and those recorded in the other mutexes it
  // holds.
  lemma UnlockFalls(s: State, id: nat)
    requires Sound(s) && Cur(s).pc == Outside && Cur(s).stat == Running && MutexOf(s, id).owner == Thread(s.k.cur)
    ensures var p := T(MutexUnlock(s, id).0.k, s.k.cur).prio;
      && p <= Cur(s).init && (forall h {:trigger MutexOf(s, h)} | h in Taken(s, s.k.cur) && h != id :: p <= MutexOf(s, h).prio)
      && (p == Cur(s).init || exists h {:trigger MutexOf(s, h)} :: h in Taken(s, s.k.cur) && h != id && p == MutexOf(s, h).prio)
  {
    hide Whole, ObjectsGood, MutexesGood, Released, GiveUp, Schedule, Awaken;
    CallingRuns(s);
    GiveUpReleased(s, id);
    FallenValue(s, id);
    var s1, l := GiveUp(s, id), MutexList(id);
    if Q(s1.k, l) != [] {
      WakeFlags(s1.k, l);
      var k := Awaken(s1.k, Q(s1.k, l)[0], EOK);
      AwakenHeads(s1.k, l);
      ScheduleOk(k);
      assert Alike(T(k, s.k.cur), T(Schedule(k), s.k.cur));
    }
  }

  lemma AwakenHeads(k: Core, l: ListId)
    requires Whole(k) && Q(k, l) != [] && !l.ReadyList?
    ensures Whole(Awaken(k, Q(k, l)[0], EOK))
  {
    hide Linked, BitsOk, ThreadOk;
    OnWait(k, Q(k, l)[0], l);
    AwakenOk(k, Q(k, l)[0], EOK);
  }

  lemma FallenValue(s: State, id: nat)
    requires MutexesGood(s) && MutexOf(s, id).owner == Thread(s.k.cur)
    ensures var p := T(GiveUp(s, id).k, s.k.cur).prio;
      && p <= Cur(s).init && (forall h {:trigger MutexOf(s, h)} | h in Taken(s, s.k.cur) && h != id :: p <= MutexOf(s, h).prio)
      && (p == Cur(s).init || exists h {:trigger MutexOf(s, h)} :: h in Taken(s, s.k.cur) && h != id && p == MutexOf(s, h).prio)
  {
    var ids, s1 := Minus(Taken(s, s.k.cur), id), s.(taken := s.taken[s.k.cur := Minus(Taken(s, s.k.cur), id)]);
    assert TakenGood(s, s.k.cur) && MutexGood(s, id);
    MinusMembers(Taken(s, s.k.cur), id);
    LeastSame(s, s1, Cur(s).init, ids);
    LeastPrioIs(s, Cur(s).init, ids);
  }

  // Aborting another thread leaves the most urgent thread running exactly if none of the joiners it wakes is more urgent.
  lemma AbortOmission(s: State, t: Tid)
    requires Sound(s) && Optimal(s.k) && t in s.k.tcb && t != s.k.cur && T(s.k, t).stat != Dead && !T(s.k, t).essential
    ensures var s' := ThreadAbort(s, t).0;
      Optimal(s'.k) <==> forall j | j in Q(s.k, JoinList(t)) && j != t :: Cur(s).prio <= T(s.k, j).prio
  {
    hide Whole, ObjectsGood, MutexesGood, ObjectsGoodBut, Retire, WakeAll;
    RetireOther(s.k, t);
    RetireGood(s, t);
    var s1 := s.(k := Retire(s.k, t, Dead));
    RetiredOthers(s, t);
    Joiners(s1, t);
    var k, l := WakeAll(s1.k, JoinList(t)), JoinList(t);
    assert ThreadAbort(s, t).0.k == k;
    assert Q(s1.k, l) == Q(Retire(s.k, t, Dead), l);
    assert s.k.cur !in Q(s.k, l) && T(k, s.k.cur) == Cur(s);
    forall x ensures x in k.tcb && T(k, x).stat == Ready <==> x in k.tcb && x != t && (x in Q(s.k, l) || T(s.k, x).stat == Ready) {
      assert T(k, x).stat == Ready || T(k, x) == T(s1.k, x);
    }
    forall x | x != t ensures T(k, x).prio == T(s.k, x).prio {
      assert x in Q(s1.k, l) || T(k, x) == T(s1.k, x);
    }
    if Optimal(k) {
      forall j | j in Q(s.k, l) && j != t ensures Cur(s).prio <= T(s.k, j).prio { assert T(k, j).stat == Ready; }
    }
  }

  lemma RetiredOthers(s: State, t: Tid)
    requires Sound(s) && t in s.k.tcb && t != s.k.idle
    ensures var k := Retire(s.k, t, Dead);
      && (forall x {:trigger T(k, x)} :: x != t ==> T(k, x) == T(s.k, x)) && T(k, t).stat == Dead && k.tcb.Keys == s.k.tcb.Keys
      && (forall x :: x in Q(k, JoinList(t)) <==> x in Q(s.k, JoinList(t)) && x != t)
      && (forall x :: x in Q(s.k, JoinList(t)) ==> x in s.k.tcb && T(s.k, x).stat == Block)
  {
    hide Linked, BitsOk, ObjectsGood, MutexesGood;
    RetireOk(s.k, t, Dead);
    LeftWaiters(s.k, Retire(s.k, t, Dead), t, JoinList(t));
    forall x | x in Q(s.k, JoinList(t)) ensures x in s.k.tcb && T(s.k, x).stat == Block { OnWait(s.k, x, JoinList(t)); }
  }

  // A joiner that has been woken.
  function Joined(c: Tcb): Tcb {
    c.(stat := Ready, error := EOK, timer := Disarmed, qnode := On(ReadyList(c.prio)), ended := c.ended + 1)
  }

  // Waking all joiners changes exactly their control blocks.
  lemma {:induction false} Joiners(s: State, t: Tid)
    requires Whole(s.k) && ObjectsGoodBut(s, t) && MutexesGood(s)
    ensures var k := WakeAll(s.k, JoinList(t));
      && k.cur == s.k.cur && k.idle == s.k.idle && k.tcb.Keys == s.k.tcb.Keys
      && forall x {:trigger T(k, x)} :: T(k, x) == if x in Q(s.k, JoinList(t)) then Joined(T(s.k, x)) else T(s.k, x)
    decreases |Q(s.k, JoinList(t))|
  {
    hide Whole, ObjectsGoodBut, MutexesGood;
    var l := JoinList(t);
    if Q(s.k, l) != [] {
      var h := Q(s.k, l)[0];
      WakeAllStep(s, t);
      OnWait(s.k, h, l);
      AwakenOk(s.k, h, EOK);
      var k1 := Awaken(s.k, h, EOK);
      LeftWaiters(s.k, k1, h, l);
      Joiners(s.(k := k1), t);
    }
  }

  // ----- Requests made inside an interrupt

  ghost predicate SameFlags(k: Core, k': Core) { k'.nest == k.nest && (k.asked ==> k'.asked) && k'.cur == k.cur }

  lemma AwakenFlags(k: Core, t: Tid, e: Ending)
    ensures SameFlags(k, Awaken(k, t, e))
  {
  }

  lemma {:induction false} WakeAllFlags(k: Core, l: ListId)
    ensures SameFlags(k, WakeAll(k, l))
    decreases |Q(k, l)|
  {
    if Q(k, l) != [] {
      var k' := Awaken(k, Q(k, l)[0], EOK);
      AwakenFlags(k, Q(k, l)[0], EOK);
      if |Q(k', l)| < |Q(k, l)| { WakeAllFlags(k', l); }
    }
  }

  lemma {:induction false} WalkFlags(s: State, id: nat, rest: seq<Tid>)
    ensures SameFlags(s.k, EventWalk(s, id, rest).k)
    decreases |rest|
  {
    hide Awaken;
    if rest != [] {
      var c := T(s.k, rest[0]);
      if Satisfied(EventOf(s, id), c.mask, c.every) {
        AwakenFlags(s.k, rest[0], c.error);
        WalkFlags(s.(events := s.events[id := EventOf(s, id) - c.mask], k := Awaken(s.k, rest[0], c.error)), id, rest[1..]);
      } else {
        WalkFlags(s, id, rest[1..]);
      }
    }
  }

  lemma RetireFlag(k: Core, t: Tid, st: Stat)
    ensures SameFlags(k, Retire(k, t, st))
  {
  }

  lemma PutFlags(k: Core, t: Tid, c: Tcb)
    ensures SameFlags(k, Put(k, t, c)) && SameFlags(k, AddTail(Put(k, t, c), t))
  {
  }

  ghost predicate Survives(k: Core, k': Core) { (k.asked ==> k'.asked) && k'.nest > 0 && k'.cur == k.cur }

  lemma ScheduleFlags(k: Core, k1: Core)
    requires k.nest > 0 && SameFlags(k, k1)
    ensures Survives(k, Schedule(k1)) && Survives(k, k1)
  {
  }

  lemma ReleaseSurvives(s: State, id: nat)
    requires s.k.nest > 0
    ensures Survives(s.k, SemRelease(s, id).k)
  {
    hide Awaken, Schedule;
    if Q(s.k, SemList(id)) != [] {
      AwakenFlags(s.k, Q(s.k, SemList(id))[0], EOK);
      ScheduleFlags(s.k, Awaken(s.k, Q(s.k, SemList(id))[0], EOK));
    }
  }

  lemma WakeSurvives(k: Core, s: State, l: ListId)
    requires k.nest > 0 && SameFlags(k, s.k)
    ensures Survives(k, WakeOne(s, l).k)
  {
    hide Awaken, Schedule;
    ScheduleFlags(k, s.k);
    if Q(s.k, l) != [] {
      AwakenFlags(s.k, Q(s.k, l)[0], EOK);
      ScheduleFlags(k, Awaken(s.k, Q(s.k, l)[0], EOK));
    }
  }

  lemma FreeSurvives(s: State, id: nat)
    requires s.k.nest > 0
    ensures Survives(s.k, PoolFree(s, id).k)
  {
    hide WakeOne;
    WakeSurvives(s.k, s.(pools := s.pools[id := PoolOf(s, id).(free := PoolOf(s, id).free + 1)]), PoolList(id));
  }

  lemma SendSurvives(s: State, id: nat, bits: set<nat>)
    requires s.k.nest > 0
    ensures Survives(s.k, EventSend(s, id, bits).k)
  {
    hide EventWalk, Schedule;
    var s1 := s.(events := s.events[id := EventOf(s, id) + bits]);
    WalkFlags(s1, id, Q(s.k, EventList(id)));
    ScheduleFlags(s.k, EventWalk(s1, id, Q(s.k, EventList(id))).k);
  }

  lemma SuspendSurvives(s: State, t: Tid)
    requires s.k.nest > 0
    ensures Survives(s.k, ThreadSuspend(s, t).0.k)
  {
    hide Retire, Schedule;
    RetireFlag(s.k, t, Suspend);
    ScheduleFlags(s.k, Retire(s.k, t, Suspend));
  }

  lemma AbortSurvives(s: State, t: Tid)
    requires s.k.nest > 0
    ensures Survives(s.k, ThreadAbort(s, t).0.k)
  {
    hide Retire, WakeAll, Schedule;
    RetireFlag(s.k, t, Dead);
    WakeAllFlags(Retire(s.k, t, Dead), JoinList(t));
    ScheduleFlags(s.k, WakeAll(Retire(s.k, t, Dead), JoinList(t)));
  }

  lemma ResumeSurvives(s: State, t: Tid)
    requires s.k.nest > 0
    ensures Survives(s.k, ThreadResume(s, t).0.k)
  {
    hide AddTail, Put, Schedule;
    PutFlags(s.k, t, T(s.k, t).(stat := Ready));
    ScheduleFlags(s.k, AddTail(Put(s.k, t, T(s.k, t).(stat := Ready)), t));
  }

  lemma TimersSurvive(s: State, t: Tid)
    requires s.k.nest > 0
    ensures Survives(s.k, TimerFires(s, t).k) && Survives(s.k, SliceTimeout(s, t).k)
  {
    hide Awaken, Put, Schedule;
    var e: Ending := if T(s.k, t).timer == PendTimer then ETIMEOUT else T(s.k, t).error;
    AwakenFlags(s.k, t, e);
    ScheduleFlags(s.k, Awaken(s.k, t, e));
    PutFlags(s.k, s.k.cur, Cur(s).(yielding := true));
    ScheduleFlags(s.k, Put(s.k, s.k.cur, Cur(s).(yielding := true)));
  }

  lemma QueuesSurvive(s: State, id: nat, msg: nat)
    requires s.k.nest > 0
    ensures Survives(s.k, QueueSend(s, id, msg, NoWait).0.k) && Survives(s.k, QueueRecv(s, id, NoWait).0.k)
  {
    hide WakeOne;
    var q := QueueOf(s, id);
    WakeSurvives(s.k, s.(queues := s.queues[id := q.(msgs := q.msgs + [msg], sent := q.sent + [msg])]), RecvList(id));
    if q.msgs != [] {
      WakeSurvives(s.k, s.(queues := s.queues[id := q.(msgs := q.msgs[1..], got := q.got + [q.msgs[0]])]), SendList(id));
    }
  }

  lemma TakesSurvive(s: State, id: nat)
    requires s.k.nest > 0
    ensures Survives(s.k, SemTake(s, id, NoWait).0.k) && Survives(s.k, PoolAlloc(s, id, NoWait).0.k)
  {
  }

  lemma EventRecvSurvives(s: State, id: nat, mask: set<nat>, every: bool)
    requires s.k.nest > 0
    ensures Survives(s.k, EventRecv(s, id, mask, every, NoWait).0.k)
  {
  }

  lemma LockSurvives(s: State, id: nat)
    requires s.k.nest > 0
    ensures Survives(s.k, MutexLock(s, id, NoWait).0.k)
  {
    hide ChangePrio;
    match MutexOf(s, id).owner {
      case None =>
      case Thread(o) => PrioFlags(s.k, o, Cur(s).prio);
    }
  }

  lemma PrioFlags(k: Core, t: Tid, p: nat)
    ensures SameFlags(k, ChangePrio(k, t, p))
  {
  }

  lemma UnlockSurvives(s: State, id: nat)
    requires s.k.nest > 0
    ensures Survives(s.k, MutexUnlock(s, id).0.k)
  {
    hide Awaken, Schedule, LeastPrio;
    var s1 := GiveUp(s, id);
    ScheduleFlags(s.k, s1.k);
    if Q(s1.k, MutexList(id)) != [] {
      AwakenFlags(s1.k, Q(s1.k, MutexList(id))[0], EOK);
      ScheduleFlags(s.k, Awaken(s1.k, Q(s1.k, MutexList(id))[0], EOK));
    }
  }

  lemma ThreadsSurvive(s: State, t: Tid, prio: nat, essential: bool)
    requires s.k.nest > 0
    ensures Survives(s.k, ThreadJoin(s, t, NoWait).0.k) && Survives(s.k, ThreadYield(s).k) && Survives(s.k, ThreadCreate(s, t, prio, essential).0.k)
  {
    hide AddTail, Put, Schedule;
    PutFlags(s.k, s.k.cur, Cur(s).(yielding := true));
    ScheduleFlags(s.k, Put(s.k, s.k.cur, Cur(s).(yielding := true)));
    PutFlags(s.k, t, NewThread(prio, essential));
    ScheduleFlags(s.k, Create(s.k, t, prio, essential));
  }

  lemma ObjectsSurvive(s: State, op: Op)
    requires Legal(s, op) && s.k.nest > 0 && op.OnObject()
    ensures Survives(s.k, Step(s, op).0.k)
  {
    hide SemTake, SemRelease, PoolAlloc, PoolFree, EventSend, EventRecv, MutexLock, MutexUnlock, QueueSend, QueueRecv, Survives;
    match op {
      case OpSemTake(id, _) => TakesSurvive(s, id);
      case OpSemRelease(id) => ReleaseSurvives(s, id);
      case OpLock(id, _) => LockSurvives(s, id);
      case OpUnlock(id) => UnlockSurvives(s, id);
      case OpSend(id, msg, _) => QueuesSurvive(s, id, msg);
      case OpRecv(id, _) => QueuesSurvive(s, id, 0);
      case OpAlloc(id, _) => TakesSurvive(s, id);
      case OpFree(id) => FreeSurvives(s, id);
      case OpEventSend(id, bits) => SendSurvives(s, id, bits);
      case OpEventRecv(id, mask, every, _) => EventRecvSurvives(s, id, mask, every);
    }
  }

  // Nothing but the outermost exit takes back a request for a switch, and no thread is switched before it.
  lemma RequestsSurvive(s: State, op: Op)
    requires Legal(s, op) && s.k.nest > 0 && !(op.OpExit? && s.k.nest == 1)
    ensures Survives(s.k, Step(s, op).0.k)
  {
    if op.OnObject() {
      hide Step;
      ObjectsSurvive(s, op);
    } else {
      hide ScheduleCore, ThreadSuspend, ThreadResume, ThreadAbort, TimerFires, SliceTimeout, ThreadJoin, ThreadCreate, ThreadDelay,
        ThreadYield, Return;
      match op {
        case OpJoin(t, _) => ThreadsSurvive(s, t, 0, false);
        case OpYield => ThreadsSurvive(s, 0, 0, false);
        case OpSuspend(t) => SuspendSurvives(s, t);
        case OpResume(t) => ResumeSurvives(s, t);
        case OpAbort(t) => AbortSurvives(s, t);
        case OpCreate(t, prio, essential) => ThreadsSurvive(s, t, prio, essential);
        case OpTimer(t) => TimersSurvive(s, t);
        case OpSlice(t) => TimersSurvive(s, t);
        case OpEnter =>
        case OpExit =>
      }
    }
  }

  // ----- Who is woken, and where it goes

  // A woken thread is the first of its wait list, the others keep their order, and it queues behind its ready peers.
  lemma WakesFirst(k: Core, l: ListId)
    requires Whole(k) && Q(k, l) != [] && !l.ReadyList?
    ensures var (h, k') := (Q(k, l)[0], Awaken(k, Q(k, l)[0], EOK));
      && Q(k', l) == Q(k, l)[1..] && T(k', h).error == EOK && T(k', h).timer == Disarmed
      && Q(k', ReadyList(T(k, h).prio)) == Q(k, ReadyList(T(k, h).prio)) + [h]
  {
    var h := Q(k, l)[0];
    OnWait(k, h, l);
    AwakenOk(k, h, EOK);
    JoinsBehind(k, h, EOK);
    assert Minus(Q(k, l), h) == Q(k, l)[1..];
  }

  lemma JoinsBehind(k: Core, t: Tid, e: Ending)
    requires Whole(k) && t in k.tcb && T(k, t).stat == Block
    ensures var r := ReadyList(T(k, t).prio); Q(Awaken(k, t, e), r) == Q(k, r) + [t]
  {
    hide Linked, BitsOk;
    var r := ReadyList(T(k, t).prio);
    assert T(k, t).qnode != On(r);
    assert Q(Unlink(k, t), r) == Q(k, r);
  }

  // A caller that has to wait joins the list behind everyone up to the first that is less urgent.
  lemma WaitsBehind(s: State, call: Call) returns (i: nat)
    requires Sound(s) && MayWait(s, call)
    ensures var q := Q(s.k, WaitList(call));
      && i <= |q| && Q(Wait(s, call).k, WaitList(call)) == q[..i] + [s.k.cur] + q[i..]
      && (forall j | 0 <= j < i :: T(s.k, q[j]).prio <= Cur(s).prio) && (i < |q| ==> T(s.k, q[i]).prio > Cur(s).prio)
  {
    hide Whole, ObjectsGood, MutexesGood, Pend, Schedule;
    var k, q := Pend(s.k, call), Q(s.k, WaitList(call));
    PendOk(s.k, call);
    ScheduleOk(k);
    WaitPosBehind(s.k, q, Cur(s).prio);
    i := WaitPos(s.k, q, Cur(s).prio);
    assert Q(Schedule(k), WaitList(call)) == Q(k, WaitList(call));
  }

  lemma {:induction false} WaitPosBehind(k: Core, q: seq<Tid>, prio: nat)
    ensures var i := WaitPos(k, q, prio); (forall j | 0 <= j < i :: T(k, q[j]).prio <= prio) && (i < |q| ==> T(k, q[i]).prio > prio)
    decreases |q|
  {
    if q != [] && T(k, q[0]).prio <= prio {
      WaitPosBehind(k, q[1..], prio);
      forall j | 0 <= j < WaitPos(k, q, prio) ensures T(k, q[j]).prio <= prio { assert j > 0 ==> q[j] == q[1..][j - 1]; }
    }
  }

  // A release with takers waiting serves exactly the first of them and stores nothing.
  lemma ReleaseServesFirst(s: State, id: nat)
    requires Sound(s) && Q(s.k, SemList(id)) != []
    ensures var (s', h) := (SemRelease(s, id), Q(s.k, SemList(id))[0]);
      && Q(s'.k, SemList(id)) == Q(s.k, SemList(id))[1..] && Runnable(T(s'.k, h)) && T(s'.k, h).error == EOK
      && SemOf(s', id).val == SemOf(s, id).val
  {
    hide Linked, BitsOk, ThreadOk, ObjectsGood, MutexesGood, Schedule, Awaken;
    WakenFirst(s.k, SemList(id));
    assert SemRelease(s, id).k == Schedule(Awaken(s.k, Q(s.k, SemList(id))[0], EOK));
  }

  // The same for a scheduler call behind the wake-up.
  lemma WakenFirst(k: Core, l: ListId)
    requires Whole(k) && Q(k, l) != [] && !l.ReadyList?
    ensures var (h, k') := (Q(k, l)[0], Schedule(Awaken(k, Q(k, l)[0], EOK)));
      Q(k', l) == Q(k, l)[1..] && Runnable(T(k', h)) && T(k', h).error == EOK
  {
    hide Linked, BitsOk, ThreadOk, Schedule, Awaken;
    var h := Q(k, l)[0];
    WakesFirst(k, l);
    OnWait(k, h, l);
    AwakenOk(k, h, EOK);
    ScheduleOk(Awaken(k, h, EOK));
    assert Alike(T(Awaken(k, h, EOK), h), T(Schedule(Awaken(k, h, EOK)), h));
  }

  // An unlock with threads waiting makes the first of them the owner.
  lemma UnlockServesFirst(s: State, id: nat)
    requires Sound(s) && Calling(s) && MutexOf(s, id).owner == Thread(s.k.cur) && Q(s.k, MutexList(id)) != []
    ensures var (s', h) := (MutexUnlock(s, id).0, Q(s.k, MutexList(id))[0]);
      && MutexOf(s', id).owner == Thread(h) && id in Taken(s', h) && id !in Taken(s', s.k.cur)
      && Q(s'.k, MutexList(id)) == Q(s.k, MutexList(id))[1..] && T(s'.k, h).error == EOK
  {
    hide Linked, BitsOk, ThreadOk, ObjectsGood, MutexesGood, Released, GiveUp, Schedule, Awaken;
    CallingRuns(s);
    GiveUpReleased(s, id);
    var s1 := GiveUp(s, id);
    assert Q(s1.k, MutexList(id)) == Q(s.k, MutexList(id));
    WakenFirst(s1.k, MutexList(id));
    NotWaiting(s.k, s.k.cur, MutexList(id));
    assert id !in Taken(s1, s.k.cur) by { ReleasedFrom(s1, id, s.k.cur); }
    GiveUpOwner(s, id);
  }

  lemma ReleasedFrom(s: State, id: nat, t: Tid)
    requires Released(s, id)
    ensures id !in Taken(s, t)
  {
  }

  lemma GiveUpOwner(s: State, id: nat)
    ensures GiveUp(s, id).mutexes == s.mutexes
  {
  }

  // Storing a message with readers waiting wakes the first of them.
  lemma SendServesFirst(s: State, id: nat, msg: nat, timeout: Timeout)
    requires Sound(s) && Calling(s) && |QueueOf(s, id).msgs| < QueueOf(s, id).max && Q(s.k, RecvList(id)) != []
    ensures var (s', r) := QueueSend(s, id, msg, timeout);
      r == Done(EOK) && Q(s'.k, RecvList(id)) == Q(s.k, RecvList(id))[1..] && Runnable(T(s'.k, Q(s.k, RecvList(id))[0]))
  {
    hide Linked, BitsOk, ThreadOk, ObjectsGood, MutexesGood, Schedule, Awaken, Leave, Urgent;
    CallingRuns(s);
    LeaveSound(s);
    assert Q(Leave(s).k, RecvList(id)) == Q(s.k, RecvList(id));
    WakenFirst(Leave(s).k, RecvList(id));
  }

  // Taking a message out with senders waiting wakes the first of them, and giving back a block the first allocator.
  lemma RecvServesFirst(s: State, id: nat, timeout: Timeout)
    requires Sound(s) && Calling(s) && QueueOf(s, id).msgs != [] && Q(s.k, SendList(id)) != []
    ensures var (s', r) := QueueRecv(s, id, timeout);
      && r == Done(EOK) && QueueOf(s', id).got == QueueOf(s, id).got + [QueueOf(s, id).msgs[0]]
      && Q(s'.k, SendList(id)) == Q(s.k, SendList(id))[1..] && Runnable(T(s'.k, Q(s.k, SendList(id))[0]))
  {
    hide Linked, BitsOk, ThreadOk, ObjectsGood, MutexesGood, Schedule, Awaken, Leave, Urgent;
    CallingRuns(s);
    LeaveSound(s);
    assert Q(Leave(s).k, SendList(id)) == Q(s.k, SendList(id));
    WakenFirst(Leave(s).k, SendList(id));
  }

  lemma FreeServesFirst(s: State, id: nat)
    requires Sound(s) && Q(s.k, PoolList(id)) != []
    ensures var s' := PoolFree(s, id);
      && PoolOf(s', id).free == PoolOf(s, id).free + 1
      && Q(s'.k, PoolList(id)) == Q(s.k, PoolList(id))[1..] && Runnable(T(s'.k, Q(s.k, PoolList(id))[0]))
  {
    hide Linked, BitsOk, ThreadOk, ObjectsGood, MutexesGood, Schedule, Awaken;
    WakenFirst(s.k, PoolList(id));
  }

  // A ready owner that is lent a priority goes ahead of its new peers.
  lemma BoostedAhead(k: Core, t: Tid, p: nat)
    requires Whole(k) && t in k.tcb && T(k, t).stat == Ready && p < T(k, t).prio
    ensures Q(ChangePrio(k, t, p), ReadyList(p)) == [t] + Q(k, ReadyList(p))
  {
    hide Linked, BitsOk;
    RemoveOnly(k, t);
    assert Q(ReadyRemove(k, t), ReadyList(p)) == Q(k, ReadyList(p));
  }

  // A wait that its timer ends leaves the wait list and reports the timeout; a delay ends without an error of its own.
  lemma TimeoutReports(s: State, t: Tid)
    requires Sound(s) && s.k.nest > 0 && t in s.k.tcb && T(s.k, t).timer != Disarmed
    ensures var (s', c) := (TimerFires(s, t), T(s.k, t));
      && Runnable(T(s'.k, t)) && T(s'.k, t).timer == Disarmed && (forall l: ListId | !l.ReadyList? :: t !in Q(s'.k, l))
      && T(s'.k, t).error == if c.timer == PendTimer then ETIMEOUT else c.error
  {
    hide Linked, BitsOk, ObjectsGood, MutexesGood, Schedule, Awaken;
    var e: Ending := if T(s.k, t).timer == PendTimer then ETIMEOUT else T(s.k, t).error;
    AwakenOk(s.k, t, e);
    var k := Awaken(s.k, t, e);
    ScheduleOk(k);
    assert Alike(T(k, t), T(Schedule(k), t));
    forall l: ListId | !l.ReadyList? ensures t !in Q(Schedule(k), l) { NotWaiting(Schedule(k), t, l); }
  }

  // What a receive takes is gone: the same receive again finds nothing.
  lemma ReceiveOnce(s: State, id: nat, mask: set<nat>, every: bool)
    requires mask != {} && EventRecv(s, id, mask, every, NoWait).1 == Done(EOK)
    ensures EventRecv(EventRecv(s, id, mask, every, NoWait).0, id, mask, every, NoWait).1 == Done(EBUSY)
    ensures EventOf(EventRecv(s, id, mask, every, NoWait).0, id) * mask == {}
    ensures forall b | b !in mask :: b in EventOf(EventRecv(s, id, mask, every, NoWait).0, id) <==> b in EventOf(s, id)
  {
  }

  // ----- Rotation among equals

  // The running thread and its ready peers, in the order they will run.
  function Line(s: State): seq<Tid> { [s.k.cur] + Q(s.k, ReadyList(Cur(s).prio)) }

  // Outside interrupts, a thread of priority p runs and nobody more urgent is ready.
  ghost predicate Sharing(s: State, p: nat) { Sound(s) && s.k.nest == 0 && Optimal(s.k) && Cur(s).prio == p }

  // A yield passes the processor to the first peer and puts the caller behind the last; without a peer the caller keeps
  // it, and its flag stays set.
  lemma YieldRotates(s: State, p: nat)
    requires Sharing(s, p)
    ensures var s' := ThreadYield(s);
      && Sharing(s', p) && (Line(s') == if |Line(s)| == 1 then Line(s) else Line(s)[1..] + [Line(s)[0]])
      && (|Line(s)| == 1 ==> s' == s.(k := Put(s.k, s.k.cur, Cur(s).(yielding := true))))
  {
    hide Whole, ObjectsGood, MutexesGood, Highest, Schedule;
    var c, s1, s' := Cur(s).(yielding := true), s.(k := Put(s.k, s.k.cur, Cur(s).(yielding := true))), ThreadYield(s);
    PutWhole(s.k, s.k.cur, c);
    PutOnly(s.k, s.k.cur, c);
    YieldSound(s);
    ScheduleOk(s1.k);
    assert Q(s1.k, ReadyList(p)) == Q(s.k, ReadyList(p));
    Passed(s1.k, p);
    assert Alike(T(s1.k, s'.k.cur), T(s'.k, s'.k.cur));
  }

  lemma Passed(k: Core, p: nat)
    requires Whole(k) && Optimal(k) && k.nest == 0 && T(k, k.cur).prio == p && T(k, k.cur).yielding
    ensures var (k', q) := (Schedule(k), Q(k, ReadyList(p)));
      if q == [] then k' == k else k'.cur == q[0] && T(k, k'.cur).prio == p && Q(k', ReadyList(p)) == q[1..] + [k.cur]
  {
    hide Linked, BitsOk, Highest, ContextSwitch, GiveWay, ScheduleCore;
    var q, l := Q(k, ReadyList(p)), ReadyList(p);
    HighestOk(k);
    Placement(k);
    if q != [] {
      OnReady(k, q[0], p);
      var n := Highest(k).t;
      assert T(k, n).prio == p;
      assert Q(ScheduleCore(k), l) == (q + [k.cur])[1..];
    } else if Highest(k).Next? {
      assert T(k, Highest(k).t).prio != p;
    }
  }

  lemma OnReady(k: Core, t: Tid, p: nat)
    requires Whole(k) && t in Q(k, ReadyList(p))
    ensures t in k.tcb && T(k, t).stat == Ready && T(k, t).prio == p
  {
    assert ListOk(k, ReadyList(p));
  }

  function Yields(s: State, n: nat): State { if n == 0 then s else ThreadYield(Yields(s, n - 1)) }

  // Threads that yield to each other take turns in order, and the line is as before once each has had its turn.
  lemma {:induction false} RoundRobin(s: State, p: nat, n: nat)
    requires Sharing(s, p) && n <= |Line(s)|
    ensures Sharing(Yields(s, n), p) && Line(Yields(s, n)) == Line(s)[n..] + Line(s)[..n]
  {
    hide Sharing, ThreadYield, Line;
    if n > 0 {
      RoundRobin(s, p, n - 1);
      YieldRotates(Yields(s, n - 1), p);
      Turned(Line(s), n);
    } else {
      assert Line(s)[0..] + Line(s)[..0] == Line(s);
    }
  }

  lemma Turned(r: seq<Tid>, n: nat)
    requires 0 < n <= |r|
    ensures var q := r[n - 1..] + r[..n - 1]; (if |q| == 1 then q else q[1..] + [q[0]]) == r[n..] + r[..n]
  {
    var q := r[n - 1..] + r[..n - 1];
    assert q[0] == r[n - 1];
    assert q[1..] == r[n..] + r[..n - 1] && r[..n - 1] + [r[n - 1]] == r[..n];
  }

  // The slice timer of the running thread asks for a rotation exactly if a thread of the same priority is ready.
  lemma SliceAsks(s: State, t: Tid)
    requires Sound(s) && s.k.nest > 0 && Cur(s).stat == Running
    ensures var (s', peer) := (SliceTimeout(s, t), exists x :: x in s.k.tcb && T(s.k, x).stat == Ready && T(s.k, x).prio == Cur(s).prio);
      if t == s.k.cur && peer then s' == s.(k := Put(s.k, t, Cur(s).(yielding := true)).(asked := true)) else s' == s
  {
    hide Linked, BitsOk, ObjectsGood, MutexesGood;
    var q := Q(s.k, ReadyList(Cur(s).prio));
    if q != [] {
      OnReady(s.k, q[0], Cur(s).prio);
    } else {
      forall x | x in s.k.tcb && T(s.k, x).stat == Ready ensures T(s.k, x).prio != Cur(s).prio { ReadyListed(s.k, x); }
    }
  }

  lemma ReadyListed(k: Core, x: Tid)
    requires Whole(k) && x in k.tcb && T(k, x).stat == Ready
    ensures x in Q(k, ReadyList(T(k, x).prio))
  {
    assert NodeOk(k, x);
  }

  // The end of the outermost interrupt then hands the processor to the first peer and puts the thread behind the last.
  lemma SliceRotates(s: State)
    requires Sound(s) && s.k.nest == 1 && Optimal(s.k) && |Line(s)| > 1
    ensures var s' := ExitIrq(SliceTimeout(s, s.k.cur)); s'.k.nest == 0 && Line(s') == Line(s)[1..] + [Line(s)[0]]
  {
    hide Whole, ObjectsGood, MutexesGood, Highest, ScheduleCore, SliceTimeout, ExitIrq;
    var c := Cur(s).(yielding := true);
    var k := Put(s.k, s.k.cur, c);
    var k1 := k.(asked := false, nest := 0);
    PutWhole(s.k, s.k.cur, c);
    PutOnly(s.k, s.k.cur, c);
    FlagsWhole(k, false, 0);
    assert forall x :: T(k1, x) == T(k, x);
    assert Q(k1, ReadyList(c.prio)) == Q(k, ReadyList(c.prio)) == Q(s.k, ReadyList(c.prio));
    SliceExit(s);
    Passed(k1, c.prio);
    ScheduleOk(k1);
    assert Alike(T(k1, ScheduleCore(k1).cur), T(ScheduleCore(k1), ScheduleCore(k1).cur));
  }

  lemma SliceExit(s: State)
    requires Whole(s.k) && Cur(s).stat == Running && s.k.nest == 1 && |Line(s)| > 1
    ensures ExitIrq(SliceTimeout(s, s.k.cur)).k == ScheduleCore(Put(s.k, s.k.cur, Cur(s).(yielding := true)).(asked := false, nest := 0))
  {
    hide Linked, BitsOk, ScheduleCore;
  }

  // ----- Starting, stopping and going on

  // A new thread runs at once if it is more urgent than the caller, and is last of its ready list otherwise.
  lemma CreateRuns(s: State, t: Tid, prio: nat, essential: bool)
    requires Sound(s) && s.k.nest == 0 && Optimal(s.k) && !Cur(s).yielding && t !in s.k.tcb && prio < PRIOS
    ensures var s' := ThreadCreate(s, t, prio, essential).0;
      if prio < Cur(s).prio then s'.k.cur == t else s'.k.cur == s.k.cur && Q(s'.k, ReadyList(prio)) == Q(s.k, ReadyList(prio)) + [t]
  {
    hide Whole, ObjectsGood, MutexesGood, Create, ScheduleCore;
    var k := Create(s.k, t, prio, essential);
    CreateOk(s.k, t, prio, essential);
    CreatedLast(s.k, t, prio, essential);
    assert T(k, s.k.cur) == Cur(s);
    Newcomer(s.k, k, t);
  }

  lemma Newcomer(k: Core, k1: Core, t: Tid)
    requires Optimal(k) && !T(k, k.cur).yielding && Whole(k1) && k1.cur == k.cur && T(k1, k.cur) == T(k, k.cur) && T(k1, t).stat == Ready
    requires k1.tcb.Keys == k.tcb.Keys + {t} && forall x {:trigger T(k1, x)} :: x != t ==> T(k1, x) == T(k, x)
    ensures if T(k1, t).prio < T(k, k.cur).prio then ScheduleCore(k1).cur == t else ScheduleCore(k1) == k1
  {
    hide Whole, ScheduleCore;
    Dispatches(k1);
    assert T(k1, t).stat == Ready;
    var n := ScheduleCore(k1).cur;
    assert n != t ==> T(k1, n) == T(k, n);
  }

  // It has the priority and the option it was created with, is in no call and holds nothing; nobody else changes but for who
  // runs.
  lemma CreateMakes(s: State, t: Tid, prio: nat, essential: bool)
    requires Sound(s) && t !in s.k.tcb && prio < PRIOS
    ensures var (s', c) := (ThreadCreate(s, t, prio, essential).0, T(ThreadCreate(s, t, prio, essential).0.k, t));
      && s'.k.tcb.Keys == s.k.tcb.Keys + {t} && Runnable(c) && c.prio == prio && c.init == prio && c.essential == essential
      && c.pc == Outside && c.timer == Disarmed && Taken(s', t) == []
      && forall x {:trigger T(s'.k, x)} | x != t :: Alike(T(s.k, x), T(s'.k, x))
  {
    hide Linked, BitsOk, ThreadOk, ObjectsGood, MutexesGood, Create, Schedule;
    var k := Create(s.k, t, prio, essential);
    CreateOk(s.k, t, prio, essential);
    ScheduleOk(k);
    NewHoldsNone(s, t);
    assert Alike(T(k, t), T(Schedule(k), t));
  }

  lemma CreatedLast(k: Core, t: Tid, prio: nat, essential: bool)
    requires prio < PRIOS
    ensures Q(Create(k, t, prio, essential), ReadyList(prio)) == Q(k, ReadyList(prio)) + [t]
  {
  }

  // A ready thread that is suspended and resumed comes back as it was, but behind its peers.
  lemma SuspendResume(s: State, t: Tid)
    requires Sound(s) && s.k.nest == 0 && t in s.k.tcb && t != s.k.idle && T(s.k, t).stat == Ready && Taken(s, t) == []
    ensures var s1 := ThreadSuspend(s, t).0;
      var k2 := AddTail(Put(s1.k, t, T(s1.k, t).(stat := Ready)), t);
      && T(s1.k, t).stat == Suspend && ThreadResume(s1, t) == (s1.(k := Schedule(k2)), Done(EOK))
      && T(k2, t) == T(s.k, t) && Q(k2, ReadyList(T(s.k, t).prio)) == Minus(Q(s.k, ReadyList(T(s.k, t).prio)), t) + [t]
      && forall x | x != t :: T(k2, x) == T(s.k, x)
  {
    hide Linked, BitsOk, ObjectsGood, MutexesGood, Schedule;
    RetireOk(s.k, t, Suspend);
    ReadyAt(s.k, t);
    var k1 := Retire(s.k, t, Suspend);
    ResumeOk(k1, t);
    RetiredFrom(s.k, t);
    AddedTo(k1, t, T(k1, t).(stat := Ready));
    assert !T(s.k, t).cut || T(k1, t).cut;
  }

  lemma RetiredFrom(k: Core, t: Tid)
    requires T(k, t).stat == Ready && T(k, t).qnode == On(ReadyList(T(k, t).prio)) && T(k, t).prio < PRIOS
    ensures Q(Retire(k, t, Suspend), ReadyList(T(k, t).prio)) == Minus(Q(k, ReadyList(T(k, t).prio)), t)
  {
  }
}
