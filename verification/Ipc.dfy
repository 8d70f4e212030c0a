// Semaphores, mutexes, queues, pools and events over the thread side, one atomic step per locked section.
module Ipc {
  import opened BitOps
  import opened KernelCore

  // init, released and granted are a history: the initial value, the releases, and the units handed to takers.
  datatype Sem = Sem(val: int, init: int, released: nat, granted: nat)

  datatype Owner = None | Thread(t: Tid)

  datatype Mutex = Mutex(owner: Owner, prio: nat)

  // sent and got are a history: everything ever stored and taken out.
  datatype Queue = Queue(max: nat, msgs: seq<nat>, sent: seq<nat>, got: seq<nat>)

  datatype Pool = Pool(total: nat, free: nat)

  datatype State = State(
    k: Core, sems: map<nat, Sem>, mutexes: map<nat, Mutex>, taken: map<Tid, seq<nat>>,
    queues: map<nat, Queue>, pools: map<nat, Pool>, events: map<nat, set<nat>>)

  function SemOf(s: State, id: nat): Sem { if id in s.sems then s.sems[id] else Sem(0, 0, 0, 0) }

  function MutexOf(s: State, id: nat): Mutex { if id in s.mutexes then s.mutexes[id] else Mutex(None, PRIOS) }

  // The mutexes on t's taken_list, latest first.
  function Taken(s: State, t: Tid): seq<nat> { if t in s.taken then s.taken[t] else [] }

  function QueueOf(s: State, id: nat): Queue { if id in s.queues then s.queues[id] else Queue(1, [], [], []) }

  function PoolOf(s: State, id: nat): Pool { if id in s.pools then s.pools[id] else Pool(0, 0) }

  function EventOf(s: State, id: nat): set<nat> { if id in s.events then s.events[id] else {} }

  // The calling thread.
  function Cur(s: State): Tcb { T(s.k, s.k.cur) }

  // What a call returns, or that it has blocked.
  datatype Reply = Blocked | Done(e: Error)

  // The current thread waits and the scheduler runs.
  function Wait(s: State, call: Call): State
    requires !call.DelayFor?
  {
    s.(k := Schedule(Pend(s.k, call)))
  }

  // The head of wait list l becomes ready.
  function WakeHead(s: State, l: ListId): State
    requires Q(s.k, l) != []
  {
    s.(k := Awaken(s.k, Q(s.k, l)[0], EOK))
  }

  function Rescheduled(s: State): State { s.(k := Schedule(s.k)) }

  // The call the current thread is in has come to its return; a call made by an interrupt is no call of its.
  function Leave(s: State): State {
    if s.k.nest > 0 then s else s.(k := Put(s.k, s.k.cur, Cur(s).(pc := Outside)))
  }

  // ----- Semaphores

  function SemTake(s: State, id: nat, timeout: Timeout): (State, Reply) {
    var m := SemOf(s, id);
    if m.val > 0 then (s.(sems := s.sems[id := m.(val := m.val - 1, granted := m.granted + 1)]), Done(EOK))
    else if timeout.NoWait? then (s, Done(EBUSY))
    else (Wait(s, TakeSem(id, timeout)), Blocked)
  }

  function SemRelease(s: State, id: nat): State {
    var m := SemOf(s, id);
    if Q(s.k, SemList(id)) == [] then s.(sems := s.sems[id := m.(val := m.val + 1, released := m.released + 1)])
    else
      var s1 := WakeHead(s, SemList(id));
      Rescheduled(s1.(sems := s.sems[id := m.(released := m.released + 1, granted := m.granted + 1)]))
  }

  // ----- Mutexes

  // The owner's priority value is lowered to the locker's, and recorded in the mutex, when the locker is more urgent.
  function Boost(s: State, id: nat, o: Tid): State {
    if T(s.k, o).prio > Cur(s).prio then
      s.(mutexes := s.mutexes[id := MutexOf(s, id).(prio := Cur(s).prio)], k := ChangePrio(s.k, o, Cur(s).prio))
    else s
  }

  function Take(s: State, id: nat, t: Tid): State {
    s.(mutexes := s.mutexes[id := MutexOf(s, id).(owner := Thread(t))], taken := s.taken[t := [id] + Taken(s, t)])
  }

  function MutexLock(s: State, id: nat, timeout: Timeout): (State, Reply) {
    match MutexOf(s, id).owner
    case None => (Take(s, id, s.k.cur), Done(EOK))
    case Thread(o) =>
      if o == s.k.cur then (s, Done(EDEADLK))
      else if timeout.NoWait? then (Boost(s, id, o), Done(EBUSY))
      else (Wait(Boost(s, id, o), LockMutex(id, timeout)), Blocked)
  }

  // The loop of nd_mutex_restore_priority.
  function LeastPrio(s: State, prio: nat, ids: seq<nat>): (p: nat)
    ensures p <= prio
  {
    if ids == [] then prio
    else LeastPrio(s, if MutexOf(s, ids[0]).prio < prio then MutexOf(s, ids[0]).prio else prio, ids[1..])
  }

  // The most urgent of prio and the priorities recorded in ids: none of them is more urgent than p, and p is one of them.
  ghost predicate MostUrgent(s: State, prio: nat, ids: seq<nat>, p: nat) {
    && p <= prio && (forall m | m in ids :: p <= MutexOf(s, m).prio)
    && (p == prio || exists m | m in ids :: p == MutexOf(s, m).prio)
  }

  lemma {:induction false} LeastPrioIs(s: State, prio: nat, ids: seq<nat>)
    ensures MostUrgent(s, prio, ids, LeastPrio(s, prio, ids))
    decreases ids
  {
    if ids != [] {
      var first := MutexOf(s, ids[0]).prio;
      LeastPrioIs(s, if first < prio then first else prio, ids[1..]);
      assert ids == [ids[0]] + ids[1..];
    }
  }

  lemma {:induction false} LeastSame(s: State, s': State, prio: nat, ids: seq<nat>)
    requires s'.mutexes == s.mutexes
    ensures LeastPrio(s', prio, ids) == LeastPrio(s, prio, ids)
    decreases ids
  {
    if ids != [] { LeastSame(s, s', if MutexOf(s, ids[0]).prio < prio then MutexOf(s, ids[0]).prio else prio, ids[1..]); }
  }

  // The current thread gives up a mutex and falls back to the priority it still deserves.
  function GiveUp(s: State, id: nat): State {
    var s1 := s.(taken := s.taken[s.k.cur := Minus(Taken(s, s.k.cur), id)]);
    s1.(k := Put(s.k, s.k.cur, Cur(s).(prio := LeastPrio(s1, Cur(s).init, Taken(s1, s.k.cur)))))
  }

  function MutexUnlock(s: State, id: nat): (State, Reply) {
    if MutexOf(s, id).owner != Thread(s.k.cur) then (s, Done(EPERM))
    else
      var s1 := GiveUp(s, id);
      if Q(s1.k, MutexList(id)) == [] then (s1.(mutexes := s1.mutexes[id := Mutex(None, PRIOS)]), Done(EOK))
      else (Rescheduled(Take(WakeHead(s1, MutexList(id)), id, Q(s1.k, MutexList(id))[0])), Done(EOK))
  }

  // ----- Queues

  // Someone waiting on l, if any, is woken and the scheduler runs.
  function WakeOne(s: State, l: ListId): State {
    if Q(s.k, l) == [] then s else Rescheduled(WakeHead(s, l))
  }

  // One pass of the send loop: blocked again, refused, or the message stored.
  function QueueSend(s: State, id: nat, msg: nat, timeout: Timeout): (State, Reply) {
    var q := QueueOf(s, id);
    if |q.msgs| == q.max then
      if timeout.NoWait? then (Leave(s), Done(EFULL)) else (Wait(s, SendQueue(id, msg, timeout)), Blocked)
    else
      (WakeOne(Leave(s).(queues := s.queues[id := q.(msgs := q.msgs + [msg], sent := q.sent + [msg])]), RecvList(id)), Done(EOK))
  }

  function QueueRecv(s: State, id: nat, timeout: Timeout): (State, Reply) {
    var q := QueueOf(s, id);
    if q.msgs == [] then
      if timeout.NoWait? then (Leave(s), Done(EEMPTY)) else (Wait(s, RecvQueue(id, timeout)), Blocked)
    else
      (WakeOne(Leave(s).(queues := s.queues[id := q.(msgs := q.msgs[1..], got := q.got + [q.msgs[0]])]), SendList(id)), Done(EOK))
  }

  // ----- Pools

  function PoolAlloc(s: State, id: nat, timeout: Timeout): (State, Reply) {
    var p := PoolOf(s, id);
    if p.free == 0 then
      if timeout.NoWait? then (Leave(s), Done(ERROR)) else (Wait(s, AllocPool(id, timeout)), Blocked)
    else (Leave(s).(pools := s.pools[id := p.(free := p.free - 1)]), Done(EOK))
  }

  function PoolFree(s: State, id: nat): State {
    var p := PoolOf(s, id);
    WakeOne(s.(pools := s.pools[id := p.(free := p.free + 1)]), PoolList(id))
  }

  // ----- Events, a set of bits each

  // nd_event_is_satisfied
  predicate Satisfied(bits: set<nat>, mask: set<nat>, every: bool) {
    if every then bits * mask == mask else bits * mask != {}
  }

  // All the bits asked for are set, or at least one of them.
  lemma SatisfiedMeans(bits: set<nat>, mask: set<nat>, every: bool)
    ensures Satisfied(bits, mask, every) <==> if every then mask <= bits else exists b :: b in mask && b in bits
  {
    if every {
      assert mask <= bits ==> bits * mask == mask;
      assert bits * mask == mask ==> forall b | b in mask :: b in bits * mask;
    } else if bits * mask == {} {
      forall b | b in mask ensures b !in bits { assert b !in bits * mask; }
    } else {
      var b :| b in bits * mask;
      assert b in mask && b in bits;
    }
  }

  // The walk of nd_event_send over the waiters still to visit.
  function EventWalk(s: State, id: nat, rest: seq<Tid>): State
    decreases |rest|
  {
    if rest == [] then s
    else
      var c := T(s.k, rest[0]);
      if Satisfied(EventOf(s, id), c.mask, c.every) then
        EventWalk(s.(events := s.events[id := EventOf(s, id) - c.mask], k := Awaken(s.k, rest[0], c.error)), id, rest[1..])
      else EventWalk(s, id, rest[1..])
  }

  function EventSend(s: State, id: nat, bits: set<nat>): State {
    Rescheduled(EventWalk(s.(events := s.events[id := EventOf(s, id) + bits]), id, Q(s.k, EventList(id))))
  }

  function EventRecv(s: State, id: nat, mask: set<nat>, every: bool, timeout: Timeout): (State, Reply) {
    var s1 := s.(k := Put(s.k, s.k.cur, Cur(s).(mask := mask, every := every)));
    if Satisfied(EventOf(s, id), mask, every) then (s1.(events := s.events[id := EventOf(s, id) - mask]), Done(EOK))
    else if timeout.NoWait? then (s1, Done(EBUSY))
    else (Wait(s1, RecvEvent(id, timeout)), Blocked)
  }

  // ----- Threads

  function ThreadJoin(s: State, t: Tid, timeout: Timeout): (State, Reply) {
    if t == s.k.cur then (s, Done(EDEADLK))
    else if T(s.k, t).stat == Dead then (s, Done(EOK))
    else if timeout.NoWait? then (s, Done(EBUSY))
    else (Wait(s, JoinThread(t, timeout)), Blocked)
  }

  function ThreadDelay(s: State, n: nat): State { Rescheduled(s.(k := DelayStart(s.k, n))) }

  function ThreadYield(s: State): State {
    Rescheduled(s.(k := Put(s.k, s.k.cur, Cur(s).(yielding := true))))
  }

  // nd_thread_slice_timeout
  function SliceTimeout(s: State, t: Tid): State {
    if t != s.k.cur || Cur(s).prio >= PRIOS || Q(s.k, ReadyList(Cur(s).prio)) == [] then s else ThreadYield(s)
  }

  function ThreadResume(s: State, t: Tid): (State, Reply) {
    if T(s.k, t).stat != Suspend then (s, Done(ERROR))
    else (Rescheduled(s.(k := AddTail(Put(s.k, t, T(s.k, t).(stat := Ready)), t))), Done(EOK))
  }

  function ThreadSuspend(s: State, t: Tid): (State, Reply) {
    var s1 := s.(k := Retire(s.k, t, Suspend));
    if Taken(s, t) != [] then (s, Done(EPERM))
    else match T(s.k, t).stat
      case Ready => (s1, Done(EOK))
      case Running => (Rescheduled(s1), Done(EOK))
      case Block => (Rescheduled(s1), Done(EOK))
      case _ => (s, Done(ERROR))
  }

  // nd_thread_halt
  function ThreadHalt(s: State, t: Tid): State {
    var s1 := s.(k := WakeAll(Retire(s.k, t, Dead), JoinList(t)));
    if t == s.k.cur then Rescheduled(s1) else s1
  }

  function ThreadAbort(s: State, t: Tid): (State, Reply) {
    if T(s.k, t).stat == Dead then (s, Done(EOK))
    else if T(s.k, t).essential then (s, Done(EPERM))
    else (ThreadHalt(s, t), Done(EOK))
  }

  function ThreadCreate(s: State, t: Tid, prio: nat, essential: bool): (State, Reply) {
    if prio >= PRIOS then (s, Done(EINVAL))
    else (Rescheduled(s.(k := Create(s.k, t, prio, essential))), Done(EOK))
  }

  // A thread's own timer fires: nd_thread_pend_timeout or thread_timer_callback.
  function TimerFires(s: State, t: Tid): State {
    Rescheduled(s.(k := Awaken(s.k, t, if T(s.k, t).timer == PendTimer then ETIMEOUT else T(s.k, t).error)))
  }

  // ----- Interrupts

  function EnterIrq(s: State): State { s.(k := s.k.(nest := s.k.nest + 1)) }

  // The outermost exit serves a pending request: nd_exit_interrupt, then nd_schedule_irq_exit or nd_try_schedule.
  function ExitIrq(s: State): State {
    var k := s.k.(nest := if s.k.nest > 0 then s.k.nest - 1 else 0);
    if k.nest > 0 || !k.asked then s.(k := k) else s.(k := ScheduleCore(k.(asked := false)))
  }

  // The code behind nd_scheduler() in a blocking call, run when the thread is dispatched again.
  function Return(s: State): (State, Reply) {
    match Cur(s).pc
    case Outside => (s, Done(EOK))
    case Inside(SendQueue(id, msg, timeout)) =>
      if Cur(s).error == ETIMEOUT then (Leave(s), Done(ETIMEOUT)) else QueueSend(s, id, msg, timeout)
    case Inside(RecvQueue(id, timeout)) =>
      if Cur(s).error == ETIMEOUT then (Leave(s), Done(ETIMEOUT)) else QueueRecv(s, id, timeout)
    case Inside(AllocPool(id, timeout)) =>
      if Cur(s).error == ETIMEOUT then (Leave(s), Done(ETIMEOUT)) else PoolAlloc(s, id, timeout)
    case Inside(_) => (Leave(s), Done(Cur(s).error))
  }

  // ----- What every run keeps

  ghost predicate SemGood(s: State, id: nat) {
    var m := SemOf(s, id);
    (m.val > 0 ==> Q(s.k, SemList(id)) == []) && m.val + m.granted == m.init + m.released
  }

  ghost predicate MutexGood(s: State, id: nat) {
    && (Q(s.k, MutexList(id)) != [] ==> MutexOf(s, id).owner != None)
    && (MutexOf(s, id).owner.Thread? ==> MutexOf(s, id).owner.t in s.k.tcb && id in Taken(s, MutexOf(s, id).owner.t))
  }

  // t's taken list names the mutexes t owns, once each; without any, t is at its initial priority.
  ghost predicate TakenGood(s: State, t: Tid) {
    && NoDup(Taken(s, t)) && (forall id | id in Taken(s, t) :: MutexOf(s, id).owner == Thread(t))
    && (t in s.k.tcb && Taken(s, t) == [] ==> T(s.k, t).prio == T(s.k, t).init)
  }

  // Inside a lock call a thread owns the mutex once it has been woken without timeout or suspension, and not before.
  ghost predicate LockGood(s: State, t: Tid) {
    var c := T(s.k, t);
    t in s.k.tcb && c.pc.Inside? && c.pc.call.LockMutex? ==>
      if c.stat == Block || c.cut || c.error == ETIMEOUT then c.pc.call.id !in Taken(s, t)
      else c.stat == Dead || c.pc.call.id in Taken(s, t)
  }

  ghost predicate QueueGood(s: State, id: nat) {
    var q := QueueOf(s, id);
    |q.msgs| <= q.max && 1 <= q.max && q.sent == q.got + q.msgs
  }

  ghost predicate Content(s: State, id: nat, t: Tid) {
    !Satisfied(EventOf(s, id), T(s.k, t).mask, T(s.k, t).every)
  }

  // No waiter is satisfied by the bits that are set.
  ghost predicate EventGood(s: State, id: nat) {
    forall t {:trigger Content(s, id, t)} | t in Q(s.k, EventList(id)) :: Content(s, id, t)
  }

  // Nobody waits for a dead thread.
  ghost predicate JoinGood(s: State, t: Tid) {
    Q(s.k, JoinList(t)) != [] ==> T(s.k, t).stat != Dead
  }

  ghost predicate ObjectsGood(s: State) {
    && (forall id {:trigger SemGood(s, id)} :: SemGood(s, id))
    && (forall id {:trigger QueueGood(s, id)} :: QueueGood(s, id))
    && (forall id {:trigger EventGood(s, id)} :: EventGood(s, id))
    && (forall t {:trigger JoinGood(s, t)} :: JoinGood(s, t))
  }

  ghost predicate MutexesGood(s: State) {
    && (forall id {:trigger MutexGood(s, id)} :: MutexGood(s, id))
    && (forall t {:trigger TakenGood(s, t)} :: TakenGood(s, t))
    && (forall t {:trigger LockGood(s, t)} :: LockGood(s, t))
  }

  ghost predicate Good(s: State) {
    Whole(s.k) && ObjectsGood(s) && MutexesGood(s)
  }

  // Outside interrupts the current thread runs and no request is pending; a stopped current thread has one pending.
  ghost predicate Settled(k: Core) {
    (k.asked ==> k.nest > 0) && (k.asked || T(k, k.cur).stat == Running) && T(k, k.cur).stat != Block
  }

  // ----- How the steps keep it

  lemma SideGood(s: State, k: Core)
    requires Good(s) && Whole(k) && SameSide(s.k, k)
    ensures Good(s.(k := k))
  {
    var s' := s.(k := k);
    SideObjects(s, k);
    forall id ensures MutexGood(s', id) { assert MutexGood(s, id); assert Q(k, MutexList(id)) == Q(s.k, MutexList(id)); }
    forall t ensures TakenGood(s', t) && LockGood(s', t) {
      assert TakenGood(s, t) && LockGood(s, t);
      assert Alike(T(s.k, t), T(k, t));
    }
  }

  lemma SideObjects(s: State, k: Core)
    requires Whole(s.k) && ObjectsGood(s) && SameSide(s.k, k)
    ensures ObjectsGood(s.(k := k))
  {
    hide Whole;
    var s' := s.(k := k);
    forall id ensures SemGood(s', id) && QueueGood(s', id) {
      assert SemGood(s, id) && QueueGood(s, id);
      assert Q(k, SemList(id)) == Q(s.k, SemList(id));
    }
    forall id ensures EventGood(s', id) {
      assert EventGood(s, id) && Q(k, EventList(id)) == Q(s.k, EventList(id));
      forall t | t in Q(k, EventList(id)) ensures Content(s', id, t) {
        assert Content(s, id, t) && Alike(T(s.k, t), T(k, t));
      }
    }
    forall t ensures JoinGood(s', t) {
      assert JoinGood(s, t) && Q(k, JoinList(t)) == Q(s.k, JoinList(t)) && Alike(T(s.k, t), T(k, t));
    }
  }

  lemma RescheduledGood(s: State)
    requires Good(s)
    ensures Good(Rescheduled(s)) && SameSide(s.k, Rescheduled(s).k)
  {
    hide Whole, SameSide, ObjectsGood, MutexesGood;
    ScheduleOk(s.k);
    SideGood(s, Schedule(s.k));
  }

  // Changes to one thread that is on no wait list before or after, and keeps its locks and priority.
  ghost predicate Minor(k: Core, k': Core, t: Tid) {
    && OnlyReady(k, k', t) && t in k.tcb && T(k, t).stat != Block && T(k', t).stat != Block
    && (T(k', t).stat == Dead <==> T(k, t).stat == Dead)
    && T(k', t).prio == T(k, t).prio && T(k', t).init == T(k, t).init
    && (T(k', t).pc == Outside || (T(k', t).pc == T(k, t).pc && T(k', t).cut == T(k, t).cut && T(k', t).error == T(k, t).error))
  }

  lemma MinorGood(s: State, k: Core, t: Tid)
    requires Good(s) && Whole(k) && Minor(s.k, k, t)
    ensures Good(s.(k := k))
  {
    MinorObjects(s, k, t);
    MinorMutexes(s, k, t);
  }

  // A thread that is not blocked is on no wait list.
  lemma NotWaiting(k: Core, t: Tid, l: ListId)
    requires Whole(k) && T(k, t).stat != Block && !l.ReadyList?
    ensures t !in Q(k, l)
  {
    assert ListOk(k, l);
  }

  // A thread on a wait list is blocked in the call of that list.
  lemma OnWait(k: Core, t: Tid, l: ListId)
    requires Whole(k) && !l.ReadyList? && t in Q(k, l)
    ensures t in k.tcb && T(k, t).stat == Block && T(k, t).pc.Inside? && !T(k, t).pc.call.DelayFor? && WaitList(T(k, t).pc.call) == l
    ensures T(k, t).qnode == On(l) && t != k.idle
  {
    assert ListOk(k, l);
  }

  lemma MinorObjects(s: State, k: Core, t: Tid)
    requires Whole(s.k) && ObjectsGood(s) && Minor(s.k, k, t)
    ensures ObjectsGood(s.(k := k))
  {
    var s' := s.(k := k);
    forall id ensures SemGood(s', id) && QueueGood(s', id) {
      assert SemGood(s, id) && QueueGood(s, id);
      assert Q(k, SemList(id)) == Q(s.k, SemList(id));
    }
    forall id ensures EventGood(s', id) {
      assert EventGood(s, id) && Q(k, EventList(id)) == Q(s.k, EventList(id));
      NotWaiting(s.k, t, EventList(id));
      forall x | x in Q(k, EventList(id)) ensures Content(s', id, x) {
        assert Content(s, id, x) && T(k, x) == T(s.k, x);
      }
    }
    forall x ensures JoinGood(s', x) {
      assert JoinGood(s, x) && Q(k, JoinList(x)) == Q(s.k, JoinList(x));
      assert x != t ==> T(k, x) == T(s.k, x);
    }
  }

  lemma MinorMutexes(s: State, k: Core, t: Tid)
    requires Whole(s.k) && MutexesGood(s) && Minor(s.k, k, t)
    ensures MutexesGood(s.(k := k))
  {
    var s' := s.(k := k);
    forall id ensures MutexGood(s', id) { assert MutexGood(s, id) && Q(k, MutexList(id)) == Q(s.k, MutexList(id)); }
    forall x ensures TakenGood(s', x) && LockGood(s', x) {
      assert TakenGood(s, x) && LockGood(s, x);
      assert x != t ==> T(k, x) == T(s.k, x);
    }
  }

  // As ObjectsGood, but thread t may be dead with joiners still to be woken.
  ghost predicate ObjectsGoodBut(s: State, t: Tid) {
    && (forall id {:trigger SemGood(s, id)} :: SemGood(s, id))
    && (forall id {:trigger QueueGood(s, id)} :: QueueGood(s, id))
    && (forall id {:trigger EventGood(s, id)} :: EventGood(s, id))
    && (forall x {:trigger JoinGood(s, x)} :: x != t ==> JoinGood(s, x))
  }

  // What thread t, leaving its wait or its ready list, keeps.
  ghost predicate Leaves(k: Core, k': Core, t: Tid) {
    OnlyLeft(k, k', t) && t in k.tcb && T(k', t) == T(k, t).(stat := T(k', t).stat, error := T(k', t).error, timer := T(k', t).timer,
      qnode := T(k', t).qnode, cut := T(k', t).cut, ended := T(k', t).ended) && T(k', t).stat != Block
  }

  lemma LeftWaiters(k: Core, k': Core, t: Tid, l: ListId)
    requires Whole(k) && Leaves(k, k', t) && !l.ReadyList?
    ensures forall x :: x in Q(k', l) <==> x in Q(k, l) && x != t
    ensures Q(k', l) != [] ==> Q(k, l) != []
  {
    assert ListOk(k, l) && NodeOk(k, t);
    assert Q(k', l) == if T(k, t).qnode == On(l) then Minus(Q(k, l), t) else Q(k, l);
    if T(k, t).qnode == On(l) { MinusMembers(Q(k, l), t); }
  }

  lemma LeftObjects(s: State, k: Core, t: Tid, u: Tid)
    requires Whole(s.k) && ObjectsGoodBut(s, u) && Leaves(s.k, k, t) && (T(k, t).stat == Dead ==> t == u || T(s.k, t).stat == Dead)
    ensures ObjectsGoodBut(s.(k := k), u)
  {
    hide Whole;
    var s' := s.(k := k);
    forall id ensures SemGood(s', id) && QueueGood(s', id) {
      assert SemGood(s, id) && QueueGood(s, id);
      LeftWaiters(s.k, k, t, SemList(id));
    }
    forall id ensures EventGood(s', id) {
      assert EventGood(s, id);
      LeftWaiters(s.k, k, t, EventList(id));
      forall x | x in Q(k, EventList(id)) ensures Content(s', id, x) {
        assert Content(s, id, x) && T(k, x) == T(s.k, x);
      }
    }
    forall x | x != u ensures JoinGood(s', x) {
      assert JoinGood(s, x);
      LeftWaiters(s.k, k, t, JoinList(x));
      assert x != t ==> T(k, x) == T(s.k, x);
    }
  }

  lemma LeftMutexes(s: State, k: Core, t: Tid)
    requires Whole(s.k) && MutexesGood(s) && Leaves(s.k, k, t) && LockGood(s.(k := k), t)
    ensures MutexesGood(s.(k := k))
  {
    hide Whole;
    var s' := s.(k := k);
    forall id ensures MutexGood(s', id) {
      assert MutexGood(s, id);
      LeftWaiters(s.k, k, t, MutexList(id));
    }
    forall x ensures TakenGood(s', x) && LockGood(s', x) {
      assert TakenGood(s, x) && LockGood(s, x);
      assert x != t ==> T(k, x) == T(s.k, x);
    }
  }

  // A blocked thread becomes ready, other than by being handed a mutex.
  lemma AwakenGood(s: State, t: Tid, e: Ending)
    requires Good(s) && t in s.k.tcb && T(s.k, t).stat == Block && (T(s.k, t).pc.call.LockMutex? ==> e == ETIMEOUT)
    ensures Good(s.(k := Awaken(s.k, t, e)))
  {
    hide Whole, ObjectsGood;
    AwakenObjects(s, t, e);
    AwakenOk(s.k, t, e);
    assert LockGood(s, t);
    LeftMutexes(s, Awaken(s.k, t, e), t);
  }

  lemma RetireGood(s: State, t: Tid)
    requires Good(s) && t in s.k.tcb && t != s.k.idle && T(s.k, t).stat != Dead
    ensures Good(s.(k := Retire(s.k, t, Suspend)))
    ensures var s' := s.(k := Retire(s.k, t, Dead)); Whole(s'.k) && ObjectsGoodBut(s', t) && MutexesGood(s')
  {
    hide Whole;
    RetireOk(s.k, t, Suspend);
    RetireOk(s.k, t, Dead);
    var k1, k2 := Retire(s.k, t, Suspend), Retire(s.k, t, Dead);
    assert LockGood(s, t);
    LeftObjects(s, k1, t, t);
    LeftObjects(s, k2, t, t);
    assert JoinGood(s, t);
    LeftWaiters(s.k, k1, t, JoinList(t));
    LeftMutexes(s, k1, t);
    LeftMutexes(s, k2, t);
  }

  // One joiner of t is woken.
  lemma WakeAllStep(s: State, t: Tid)
    requires Whole(s.k) && ObjectsGoodBut(s, t) && MutexesGood(s) && Q(s.k, JoinList(t)) != []
    ensures var (h, l) := (Q(s.k, JoinList(t))[0], JoinList(t));
      var s' := s.(k := Awaken(s.k, h, EOK));
      && Whole(s'.k) && ObjectsGoodBut(s', t) && MutexesGood(s') && Q(s'.k, l) == Q(s.k, l)[1..]
      && s'.k.nest == s.k.nest && s'.k.asked == s.k.asked && s'.k.cur == s.k.cur
      && h in s.k.tcb && T(s.k, h).stat == Block && (T(s.k, s.k.cur).stat != Block ==> T(s'.k, s.k.cur) == T(s.k, s.k.cur))
  {
    hide Whole;
    var l := JoinList(t);
    var h := Q(s.k, l)[0];
    OnWait(s.k, h, l);
    AwakenOk(s.k, h, EOK);
    var k' := Awaken(s.k, h, EOK);
    assert LockGood(s, h);
    LeftObjects(s, k', h, t);
    LeftMutexes(s, k', h);
    assert Q(k', l) == Minus(Q(s.k, l), h) == Q(s.k, l)[1..];
  }

  lemma NoJoiners(s: State, t: Tid)
    requires ObjectsGoodBut(s, t) && Q(s.k, JoinList(t)) == []
    ensures ObjectsGood(s)
  {
    assert JoinGood(s, t);
  }

  // Waking every joiner of the dead thread t.
  lemma {:induction false} WakeAllGood(s: State, t: Tid)
    requires Whole(s.k) && ObjectsGoodBut(s, t) && MutexesGood(s)
    ensures Good(s.(k := WakeAll(s.k, JoinList(t))))
    ensures WakeAll(s.k, JoinList(t)).nest == s.k.nest && WakeAll(s.k, JoinList(t)).cur == s.k.cur && WakeAll(s.k, JoinList(t)).asked == s.k.asked
    ensures T(s.k, s.k.cur).stat != Block ==> T(WakeAll(s.k, JoinList(t)), s.k.cur) == T(s.k, s.k.cur)
    ensures Q(WakeAll(s.k, JoinList(t)), JoinList(t)) == []
    decreases |Q(s.k, JoinList(t))|
  {
    hide Whole, MutexesGood, ObjectsGoodBut, Awaken;
    var l := JoinList(t);
    if Q(s.k, l) == [] {
      NoJoiners(s, t);
      assert s.(k := s.k) == s;
    } else {
      WakeAllStep(s, t);
      WakeAllGood(s.(k := Awaken(s.k, Q(s.k, l)[0], EOK)), t);
    }
  }

  // What the object of a call must look like for the current thread to wait on it.
  ghost predicate MayWait(s: State, call: Call) {
    && !call.DelayFor? && !call.timeout.NoWait? && s.k.nest == 0 && Cur(s).stat == Running && s.k.cur != s.k.idle
    && match call
       case TakeSem(id, _) => SemOf(s, id).val <= 0
       case LockMutex(id, _) => MutexOf(s, id).owner != None && MutexOf(s, id).owner != Thread(s.k.cur)
       case RecvEvent(id, _) => !Satisfied(EventOf(s, id), Cur(s).mask, Cur(s).every)
       case JoinThread(t, _) => T(s.k, t).stat != Dead
       case _ => true
  }

  lemma PendGood(s: State, call: Call)
    requires Good(s) && MayWait(s, call)
    ensures Good(s.(k := Pend(s.k, call)))
  {
    hide Whole;
    PendOk(s.k, call);
    PendObjects(s, Pend(s.k, call), call);
    PendMutexes(s, Pend(s.k, call), call);
  }

  lemma PendObjects(s: State, k: Core, call: Call)
    requires Whole(s.k) && ObjectsGood(s) && MayWait(s, call) && Pended(s.k, k, call)
    ensures ObjectsGood(s.(k := k))
  {
    var s', l, t := s.(k := k), WaitList(call), s.k.cur;
    forall id ensures SemGood(s', id) && QueueGood(s', id) {
      assert SemGood(s, id) && QueueGood(s, id);
      assert SemList(id) != l ==> Q(k, SemList(id)) == Q(s.k, SemList(id));
    }
    forall id ensures EventGood(s', id) {
      assert EventGood(s, id);
      assert EventList(id) != l ==> Q(k, EventList(id)) == Q(s.k, EventList(id));
      NotWaiting(s.k, t, EventList(id));
      forall x | x in Q(k, EventList(id)) ensures Content(s', id, x) {
        if x != t {
          assert x in Q(s.k, EventList(id));
          assert Content(s, id, x) && T(k, x) == T(s.k, x);
        }
      }
    }
    forall x ensures JoinGood(s', x) {
      assert JoinGood(s, x);
      assert JoinList(x) != l ==> Q(k, JoinList(x)) == Q(s.k, JoinList(x));
      assert x != t ==> T(k, x) == T(s.k, x);
    }
  }

  lemma PendMutexes(s: State, k: Core, call: Call)
    requires Whole(s.k) && MutexesGood(s) && MayWait(s, call) && Pended(s.k, k, call)
    ensures MutexesGood(s.(k := k))
  {
    var s', l, t := s.(k := k), WaitList(call), s.k.cur;
    forall id ensures MutexGood(s', id) {
      assert MutexGood(s, id);
      assert MutexList(id) != l ==> Q(k, MutexList(id)) == Q(s.k, MutexList(id));
    }
    forall x ensures TakenGood(s', x) && LockGood(s', x) {
      assert TakenGood(s, x) && LockGood(s, x);
      assert x != t ==> T(k, x) == T(s.k, x);
    }
  }

  // ----- Mutexes changing hands

  lemma TakeFreeGood(s: State, id: nat)
    requires Good(s) && MutexOf(s, id).owner == None && Cur(s).pc == Outside && s.k.cur in s.k.tcb
    ensures Good(Take(s, id, s.k.cur))
  {
    hide Whole;
    var s', t := Take(s, id, s.k.cur), s.k.cur;
    SameObjects(s, s');
    assert MutexGood(s, id) && TakenGood(s, t);
    forall m ensures MutexGood(s', m) {
      assert MutexGood(s, m);
    }
    forall x ensures TakenGood(s', x) && LockGood(s', x) {
      assert TakenGood(s, x) && LockGood(s, x);
    }
  }

  lemma SameObjects(s: State, s': State)
    requires ObjectsGood(s) && s'.k == s.k && s'.sems == s.sems && s'.queues == s.queues && s'.events == s.events
    ensures ObjectsGood(s')
  {
    forall id ensures SemGood(s', id) && QueueGood(s', id) && EventGood(s', id) && JoinGood(s', id) {
      assert SemGood(s, id) && QueueGood(s, id) && EventGood(s, id) && JoinGood(s, id);
      forall t | t in Q(s'.k, EventList(id)) ensures Content(s', id, t) { assert Content(s, id, t); }
    }
  }

  // Mutex id belongs to nobody's taken list; the others are in order.
  ghost predicate Released(s: State, id: nat) {
    && (forall m {:trigger MutexGood(s, m)} :: m != id ==> MutexGood(s, m))
    && (forall t {:trigger TakenGood(s, t)} :: TakenGood(s, t))
    && (forall t {:trigger LockGood(s, t)} :: LockGood(s, t))
    && (forall t {:trigger Taken(s, t)} :: id !in Taken(s, t))
  }

  // Only thread t's priority differs, and the ready list it is on.
  ghost predicate Repriced(k: Core, k': Core, t: Tid) {
    && OnlyReady(k, k', t) && T(k', t) == T(k, t).(prio := T(k', t).prio, qnode := T(k', t).qnode)
  }

  lemma RepricedObjects(s: State, k: Core, t: Tid)
    requires ObjectsGood(s) && Repriced(s.k, k, t)
    ensures ObjectsGood(s.(k := k))
  {
    var s' := s.(k := k);
    assert forall x :: T(k, x).stat == T(s.k, x).stat && T(k, x).mask == T(s.k, x).mask && T(k, x).every == T(s.k, x).every;
    forall id ensures SemGood(s', id) && QueueGood(s', id) {
      assert SemGood(s, id) && QueueGood(s, id) && Q(k, SemList(id)) == Q(s.k, SemList(id));
    }
    forall id ensures EventGood(s', id) {
      assert EventGood(s, id) && Q(k, EventList(id)) == Q(s.k, EventList(id));
      forall x | x in Q(k, EventList(id)) ensures Content(s', id, x) { assert Content(s, id, x); }
    }
    forall x ensures JoinGood(s', x) { assert JoinGood(s, x) && Q(k, JoinList(x)) == Q(s.k, JoinList(x)); }
  }

  lemma GiveUpReleased(s: State, id: nat)
    requires Good(s) && MutexOf(s, id).owner == Thread(s.k.cur) && Cur(s).stat == Running && Cur(s).pc == Outside
    ensures var s' := GiveUp(s, id); Whole(s'.k) && ObjectsGood(s') && Released(s', id) && Repriced(s.k, s'.k, s.k.cur)
  {
    hide Linked, BitsOk;
    var s', t := GiveUp(s, id), s.k.cur;
    PutPrioOk(s.k, t, T(s'.k, t).prio);
    PutOnly(s.k, t, T(s'.k, t));
    RepricedObjects(s, s'.k, t);
    SameObjects(s.(k := s'.k), s');
    assert MutexGood(s, id) && TakenGood(s, t);
    MinusMembers(Taken(s, t), id);
    GiveUpMutexes(s, id);
  }

  lemma GiveUpMutexes(s: State, id: nat)
    requires MutexesGood(s) && MutexOf(s, id).owner == Thread(s.k.cur) && Cur(s).pc == Outside && s.k.cur in s.k.tcb
    requires var ids := Minus(Taken(s, s.k.cur), id); NoDup(ids) && forall x :: x in ids <==> x in Taken(s, s.k.cur) && x != id
    requires Repriced(s.k, GiveUp(s, id).k, s.k.cur)
    ensures Released(GiveUp(s, id), id)
  {
    var s', t := GiveUp(s, id), s.k.cur;
    forall m | m != id ensures MutexGood(s', m) {
      assert MutexGood(s, m) && Q(s'.k, MutexList(m)) == Q(s.k, MutexList(m));
    }
    forall x ensures TakenGood(s', x) && LockGood(s', x) && id !in Taken(s', x) {
      assert TakenGood(s, x) && LockGood(s, x);
      assert x != t ==> T(s'.k, x) == T(s.k, x);
    }
  }

  // Thread w is more urgent than the caller at its initial priority and than every lock recorded in the mutexes other than
  // id that the caller holds.
  ghost predicate Outranks(s: State, id: nat, w: Tid) {
    && T(s.k, w).prio < Cur(s).init
    && forall h {:trigger MutexOf(s, h)} | h in Taken(s, s.k.cur) && h != id :: T(s.k, w).prio < MutexOf(s, h).prio
  }

  // Exactly the threads that outrank the caller are more urgent than what it falls back to.
  lemma FallenTo(s: State, id: nat, w: Tid)
    requires MutexesGood(s) && MutexOf(s, id).owner == Thread(s.k.cur)
    ensures T(s.k, w).prio < LeastPrio(s, Cur(s).init, Minus(Taken(s, s.k.cur), id)) <==> Outranks(s, id, w)
  {
    var ids := Minus(Taken(s, s.k.cur), id);
    assert TakenGood(s, s.k.cur) && MutexGood(s, id);
    MinusMembers(Taken(s, s.k.cur), id);
    LeastPrioIs(s, Cur(s).init, ids);
  }

  // Nobody waits: the mutex becomes free.
  lemma FreeGood(s: State, id: nat)
    requires Whole(s.k) && ObjectsGood(s) && Released(s, id) && Q(s.k, MutexList(id)) == []
    ensures Good(s.(mutexes := s.mutexes[id := Mutex(None, PRIOS)]))
  {
    hide Whole;
    var s' := s.(mutexes := s.mutexes[id := Mutex(None, PRIOS)]);
    SameObjects(s, s');
    forall m ensures MutexGood(s', m) { assert m != id ==> MutexGood(s, m); }
    forall x ensures TakenGood(s', x) && LockGood(s', x) {
      assert TakenGood(s, x) && LockGood(s, x);
      assert id !in Taken(s, x);
    }
  }

  // The first waiter is woken and owns the mutex at once.
  lemma HandOverGood(s: State, id: nat)
    requires Whole(s.k) && ObjectsGood(s) && Released(s, id) && Q(s.k, MutexList(id)) != []
    ensures Good(Take(WakeHead(s, MutexList(id)), id, Q(s.k, MutexList(id))[0]))
  {
    hide Whole, ObjectsGood, Released, MutexesGood;
    var h := Q(s.k, MutexList(id))[0];
    var s1 := WakeHead(s, MutexList(id));
    OnWait(s.k, h, MutexList(id));
    AwakenOk(s.k, h, EOK);
    AwakenObjects(s, h, EOK);
    SameObjects(s1, Take(s1, id, h));
    NotCut(s.k, h);
    HandOverMutexes(s, id, h, s1.k);
  }

  lemma NotCut(k: Core, t: Tid)
    requires Whole(k) && t in k.tcb && T(k, t).stat == Block && !T(k, t).pc.call.DelayFor?
    ensures !T(k, t).cut && T(k, t).error == EOK
  {
  }

  lemma AwakenObjects(s: State, t: Tid, e: Ending)
    requires Whole(s.k) && ObjectsGood(s) && t in s.k.tcb && T(s.k, t).stat == Block
    ensures ObjectsGood(s.(k := Awaken(s.k, t, e))) && Whole(Awaken(s.k, t, e)) && Leaves(s.k, Awaken(s.k, t, e), t)
  {
    hide Whole;
    AwakenOk(s.k, t, e);
    LeftObjects(s, Awaken(s.k, t, e), t, t);
    assert JoinGood(s, t) && (Q(Awaken(s.k, t, e), JoinList(t)) != [] ==> Q(s.k, JoinList(t)) != []) by {
      LeftWaiters(s.k, Awaken(s.k, t, e), t, JoinList(t));
    }
  }

  lemma HandOverMutexes(s: State, id: nat, h: Tid, k: Core)
    requires Whole(s.k) && Released(s, id) && Leaves(s.k, k, h) && T(s.k, h).pc.Inside? && T(s.k, h).stat == Block
    requires T(s.k, h).pc.call.LockMutex? ==> T(s.k, h).pc.call.id == id && T(k, h).error == EOK && T(k, h).stat == Ready && T(k, h).cut == T(s.k, h).cut
    requires T(s.k, h).pc.call.LockMutex? && !T(s.k, h).cut
    ensures MutexesGood(Take(s.(k := k), id, h))
  {
    hide Whole;
    var s' := Take(s.(k := k), id, h);
    forall m ensures MutexGood(s', m) {
      assert m != id ==> MutexGood(s, m);
      LeftWaiters(s.k, k, h, MutexList(m));
    }
    forall x ensures TakenGood(s', x) && LockGood(s', x) {
      assert TakenGood(s, x) && LockGood(s, x);
      assert x != h ==> T(k, x) == T(s.k, x);
      assert id !in Taken(s, x);
    }
  }

  // Lending the owner a priority.
  lemma BoostGood(s: State, id: nat, o: Tid)
    requires Good(s) && MutexOf(s, id).owner == Thread(o)
    ensures Good(Boost(s, id, o)) && Repriced(s.k, Boost(s, id, o).k, o)
  {
    hide Linked, BitsOk;
    assert MutexGood(s, id);
    if T(s.k, o).prio > Cur(s).prio {
      var s1, s' := s.(k := ChangePrio(s.k, o, Cur(s).prio)), Boost(s, id, o);
      ChangePrioOk(s.k, o, Cur(s).prio);
      RepricedObjects(s, s'.k, o);
      SameObjects(s1, s');
      forall m ensures MutexGood(s', m) {
        assert MutexGood(s, m) && Q(s'.k, MutexList(m)) == Q(s.k, MutexList(m));
      }
      forall x ensures TakenGood(s', x) && LockGood(s', x) {
        assert TakenGood(s, x) && LockGood(s, x);
        assert x != o ==> T(s'.k, x) == T(s.k, x);
      }
    }
  }

  // ----- Steps: one locked section each, by the current thread or an interrupt

  datatype Op =
    | OpSemTake(id: nat, timeout: Timeout) | OpSemRelease(id: nat)
    | OpLock(id: nat, timeout: Timeout) | OpUnlock(id: nat)
    | OpSend(id: nat, msg: nat, timeout: Timeout) | OpRecv(id: nat, timeout: Timeout)
    | OpAlloc(id: nat, timeout: Timeout) | OpFree(id: nat)
    | OpEventSend(id: nat, bits: set<nat>) | OpEventRecv(id: nat, mask: set<nat>, every: bool, timeout: Timeout)
    | OpJoin(t: Tid, timeout: Timeout) | OpDelay(n: nat) | OpYield
    | OpSuspend(t: Tid) | OpResume(t: Tid) | OpAbort(t: Tid) | OpCreate(t: Tid, prio: nat, essential: bool)
    | OpEnter | OpExit | OpTimer(t: Tid) | OpSlice(t: Tid)
    | OpReturn
  {
    predicate OnObject() {
      OpSemTake? || OpSemRelease? || OpLock? || OpUnlock? || OpSend? || OpRecv? || OpAlloc? || OpFree? || OpEventSend? || OpEventRecv?
    }
  }

  function Step(s: State, op: Op): (State, Reply) {
    match op
    case OpSemTake(id, timeout) => SemTake(s, id, timeout)
    case OpSemRelease(id) => (SemRelease(s, id), Done(EOK))
    case OpLock(id, timeout) => MutexLock(s, id, timeout)
    case OpUnlock(id) => MutexUnlock(s, id)
    case OpSend(id, msg, timeout) => QueueSend(s, id, msg, timeout)
    case OpRecv(id, timeout) => QueueRecv(s, id, timeout)
    case OpAlloc(id, timeout) => PoolAlloc(s, id, timeout)
    case OpFree(id) => (PoolFree(s, id), Done(EOK))
    case OpEventSend(id, bits) => (EventSend(s, id, bits), Done(EOK))
    case OpEventRecv(id, mask, every, timeout) => EventRecv(s, id, mask, every, timeout)
    case OpJoin(t, timeout) => ThreadJoin(s, t, timeout)
    case OpDelay(n) => (ThreadDelay(s, n), Blocked)
    case OpYield => (ThreadYield(s), Done(EOK))
    case OpSuspend(t) => ThreadSuspend(s, t)
    case OpResume(t) => ThreadResume(s, t)
    case OpAbort(t) => ThreadAbort(s, t)
    case OpCreate(t, prio, essential) => ThreadCreate(s, t, prio, essential)
    case OpEnter => (EnterIrq(s), Done(EOK))
    case OpExit => (ExitIrq(s), Done(EOK))
    case OpTimer(t) => (TimerFires(s, t), Done(EOK))
    case OpSlice(t) => (SliceTimeout(s, t), Done(EOK))
    case OpReturn => Return(s)
  }

  // A thread other than the idle one is between two calls.
  predicate Calling(s: State) { s.k.nest == 0 && s.k.cur != s.k.idle && Cur(s).pc == Outside }

  // A call that may wait is a thread's, one that does not may be an interrupt's.
  predicate MayCall(s: State, timeout: Timeout) {
    if s.k.nest == 0 then s.k.cur != s.k.idle else timeout.NoWait?
  }

  // Who may do what: threads call between calls, interrupts call where nothing can block, timers fire while armed, and a
  // dispatched thread first finishes the call it is in. A mutex is locked or unlocked on behalf of the current thread, so
  // not inside a call of its, and unlocked only while it runs. Threads are created once; the idle thread is left alone.
  predicate Legal(s: State, op: Op) {
    match op
    case OpSemTake(_, timeout) => MayCall(s, timeout) && (s.k.nest == 0 ==> Calling(s))
    case OpSend(_, _, timeout) => MayCall(s, timeout) && (s.k.nest == 0 ==> Calling(s))
    case OpRecv(_, timeout) => MayCall(s, timeout) && (s.k.nest == 0 ==> Calling(s))
    case OpAlloc(_, timeout) => MayCall(s, timeout) && (s.k.nest == 0 ==> Calling(s))
    case OpEventRecv(_, _, _, timeout) => MayCall(s, timeout) && (s.k.nest == 0 ==> Calling(s))
    case OpJoin(t, timeout) => MayCall(s, timeout) && (s.k.nest == 0 ==> Calling(s)) && t in s.k.tcb
    case OpLock(_, timeout) => MayCall(s, timeout) && Cur(s).pc == Outside
    case OpUnlock(_) => (Calling(s) || s.k.nest > 0) && Cur(s).pc == Outside && Cur(s).stat == Running
    case OpDelay(_) => Calling(s)
    case OpSemRelease(_) | OpFree(_) | OpEventSend(_, _) | OpYield => Calling(s) || s.k.nest > 0
    case OpSuspend(t) => (Calling(s) || s.k.nest > 0) && t in s.k.tcb && t != s.k.idle
    case OpResume(t) => (Calling(s) || s.k.nest > 0) && t in s.k.tcb
    case OpAbort(t) => (Calling(s) || s.k.nest > 0) && t in s.k.tcb
    case OpCreate(t, _, _) => (Calling(s) || s.k.nest > 0) && t !in s.k.tcb
    case OpEnter => true
    case OpExit => s.k.nest > 0
    case OpTimer(t) => s.k.nest > 0 && t in s.k.tcb && T(s.k, t).timer != Disarmed
    case OpSlice(t) => s.k.nest > 0
    case OpReturn => s.k.nest == 0 && Cur(s).pc.Inside?
  }

  ghost predicate Sound(s: State) { Good(s) && Settled(s.k) }

  // The most urgent thread runs, or a request to see to it is pending.
  ghost predicate Urgent(k: Core) { k.asked || Optimal(k) }

  // The two calls that change who is most urgent without running the scheduler.
  predicate Omits(s: State, op: Op) {
    match op
    case OpUnlock(id) => MutexOf(s, id).owner == Thread(s.k.cur) && Q(s.k, MutexList(id)) == []
    case OpAbort(t) => t != s.k.cur && Q(s.k, JoinList(t)) != []
    case _ => false
  }

  // Changes that leave alone what urgency depends on.
  lemma SameUrgency(k: Core, k': Core)
    requires Urgent(k) && k'.cur == k.cur && k'.tcb.Keys == k.tcb.Keys && (k.asked ==> k'.asked)
    requires T(k, k.cur).stat == Running ==> T(k', k.cur).stat == Running && T(k', k.cur).prio == T(k, k.cur).prio
    requires forall x {:trigger T(k', x)} | x in k'.tcb && T(k', x).stat == Ready :: (T(k, x).stat == Ready && T(k', x).prio >= T(k, x).prio) || T(k', x).prio >= T(k, k.cur).prio
    ensures Urgent(k')
  {
    if !k.asked {
      forall x | x in k'.tcb && T(k', x).stat == Ready ensures T(k', k.cur).prio <= T(k', x).prio {
        assert T(k, x).stat == Ready ==> T(k, k.cur).prio <= T(k, x).prio;
      }
    }
  }

  lemma RescheduledSound(s: State)
    requires Good(s) && (s.k.asked ==> s.k.nest > 0) && (s.k.nest > 0 ==> Cur(s).stat != Block)
    ensures Sound(Rescheduled(s)) && SameSide(s.k, Rescheduled(s).k) && Urgent(Rescheduled(s).k)
  {
    hide Whole, SameSide, ObjectsGood, MutexesGood;
    ScheduleOk(s.k);
    RescheduledGood(s);
  }

  lemma WaitSound(s: State, call: Call)
    requires Sound(s) && MayWait(s, call)
    ensures Sound(Wait(s, call)) && SameSide(Pend(s.k, call), Wait(s, call).k) && Pended(s.k, Pend(s.k, call), call) && Urgent(Wait(s, call).k)
  {
    hide Whole, SameSide, ObjectsGood, MutexesGood;
    PendGood(s, call);
    PendOk(s.k, call);
    RescheduledSound(s.(k := Pend(s.k, call)));
  }

  lemma CallingRuns(s: State)
    requires Sound(s)
    ensures s.k.cur in s.k.tcb && Cur(s).stat != Block && (s.k.nest == 0 ==> Cur(s).stat == Running && !s.k.asked)
  {
  }

  lemma SemsGood(s: State, id: nat, m: Sem)
    requires Sound(s) && (m.val > 0 ==> Q(s.k, SemList(id)) == []) && m.val + m.granted == m.init + m.released
    ensures Sound(s.(sems := s.sems[id := m]))
  {
    hide Whole, MutexesGood;
    var s' := s.(sems := s.sems[id := m]);
    forall x ensures SemGood(s', x) && QueueGood(s', x) && EventGood(s', x) && JoinGood(s', x) {
      assert SemGood(s, x) && QueueGood(s, x) && EventGood(s, x) && JoinGood(s, x);
      forall t | t in Q(s'.k, EventList(x)) ensures Content(s', x, t) { assert Content(s, x, t); }
    }
    SameMutexes(s, s');
  }

  lemma SameMutexes(s: State, s': State)
    requires MutexesGood(s) && s'.k == s.k && s'.mutexes == s.mutexes && s'.taken == s.taken
    ensures MutexesGood(s')
  {
    forall x ensures MutexGood(s', x) && TakenGood(s', x) && LockGood(s', x) {
      assert MutexGood(s, x) && TakenGood(s, x) && LockGood(s, x);
    }
  }

  lemma SemTakeSound(s: State, id: nat, timeout: Timeout)
    requires Sound(s) && MayCall(s, timeout)
    ensures Sound(SemTake(s, id, timeout).0)
    ensures Urgent(s.k) ==> Urgent(SemTake(s, id, timeout).0.k)
  {
    hide Whole, MutexesGood;
    CallingRuns(s);
    var m := SemOf(s, id);
    assert SemGood(s, id);
    if m.val > 0 {
      SemsGood(s, id, m.(val := m.val - 1, granted := m.granted + 1));
    } else if !timeout.NoWait? {
      WaitSound(s, TakeSem(id, timeout));
    }
  }

  // A waiter of l, in a call other than a lock, is woken.
  lemma WakeHeadGood(s: State, l: ListId)
    requires Good(s) && Q(s.k, l) != [] && !l.ReadyList? && !l.MutexList?
    ensures Good(WakeHead(s, l)) && Leaves(s.k, WakeHead(s, l).k, Q(s.k, l)[0]) && T(s.k, Q(s.k, l)[0]).qnode == On(l)
  {
    hide Whole, ObjectsGood, MutexesGood;
    OnWait(s.k, Q(s.k, l)[0], l);
    AwakenOk(s.k, Q(s.k, l)[0], EOK);
    AwakenGood(s, Q(s.k, l)[0], EOK);
  }

  lemma SemReleaseSound(s: State, id: nat)
    requires Sound(s)
    ensures Sound(SemRelease(s, id))
    ensures Urgent(s.k) ==> Urgent(SemRelease(s, id).k)
  {
    hide Whole, MutexesGood, Urgent, SameSide, Awaken, Schedule;
    var m := SemOf(s, id);
    assert SemGood(s, id);
    if Q(s.k, SemList(id)) == [] {
      SemsGood(s, id, m.(val := m.val + 1, released := m.released + 1));
    } else {
      HandSound(s, id, m.(released := m.released + 1, granted := m.granted + 1));
    }
  }

  lemma HandSound(s: State, id: nat, m: Sem)
    requires Sound(s) && Q(s.k, SemList(id)) != [] && m.val <= 0 && m.val + m.granted == m.init + m.released
    ensures var s' := Rescheduled(WakeHead(s, SemList(id)).(sems := s.sems[id := m])); Sound(s') && Urgent(s'.k)
  {
    hide Whole, MutexesGood, ObjectsGood, Urgent, SameSide, Awaken, Schedule;
    var s1 := WakeHead(s, SemList(id));
    WakeHeadGood(s, SemList(id));
    HandedGood(s1, id, m);
    RescheduledSound(s1.(sems := s1.sems[id := m]));
  }

  lemma HandedGood(s: State, id: nat, m: Sem)
    requires Good(s) && m.val <= 0 && m.val + m.granted == m.init + m.released
    ensures Good(s.(sems := s.sems[id := m]))
  {
    hide Whole, MutexesGood;
    var s' := s.(sems := s.sems[id := m]);
    forall x ensures SemGood(s', x) && QueueGood(s', x) && EventGood(s', x) && JoinGood(s', x) {
      assert SemGood(s, x) && QueueGood(s, x) && EventGood(s, x) && JoinGood(s, x);
      forall t | t in Q(s'.k, EventList(x)) ensures Content(s', x, t) { assert Content(s, x, t); }
    }
    SameMutexes(s, s');
  }

  lemma BoostSound(s: State, id: nat, o: Tid)
    requires Sound(s) && MutexOf(s, id).owner == Thread(o) && o != s.k.cur
    ensures Sound(Boost(s, id, o)) && Repriced(s.k, Boost(s, id, o).k, o) && Cur(Boost(s, id, o)) == Cur(s)
    ensures Urgent(s.k) ==> Urgent(Boost(s, id, o).k)
  {
    hide Whole, ObjectsGood, MutexesGood, Boost;
    BoostGood(s, id, o);
    var k' := Boost(s, id, o).k;
    assert T(k', s.k.cur) == Cur(s);
    if Urgent(s.k) {
      BoostUrgent(s, id, o);
    }
  }

  lemma BoostUrgent(s: State, id: nat, o: Tid)
    requires Urgent(s.k) && Repriced(s.k, Boost(s, id, o).k, o) && o != s.k.cur
    ensures Urgent(Boost(s, id, o).k)
  {
    hide AddHead, ReadyRemove;
    if T(s.k, o).prio > Cur(s).prio {
      var k' := Boost(s, id, o).k;
      assert T(k', o).stat == T(s.k, o).stat;
      assert T(k', o).prio == Cur(s).prio by { BoostedPrio(s.k, o, Cur(s).prio); }
      SameUrgency(s.k, k');
    }
  }

  lemma BoostedPrio(k: Core, t: Tid, p: nat)
    ensures T(ChangePrio(k, t, p), t).prio == p
  {
  }

  lemma MutexLockSound(s: State, id: nat, timeout: Timeout)
    requires Sound(s) && MayCall(s, timeout) && Cur(s).pc == Outside
    ensures Sound(MutexLock(s, id, timeout).0)
    ensures Urgent(s.k) ==> Urgent(MutexLock(s, id, timeout).0.k)
  {
    hide Whole, ObjectsGood, MutexesGood, Urgent, SameSide, Pended, Boost;
    CallingRuns(s);
    match MutexOf(s, id).owner {
      case None =>
        TakeFreeGood(s, id);
      case Thread(o) =>
        if o != s.k.cur {
          BoostSound(s, id, o);
          if !timeout.NoWait? {
            BoostKeeps(s, id, o);
            WaitSound(Boost(s, id, o), LockMutex(id, timeout));
          }
        }
    }
  }

  lemma BoostKeeps(s: State, id: nat, o: Tid)
    ensures MutexOf(Boost(s, id, o), id).owner == MutexOf(s, id).owner
  {
    hide ChangePrio;
  }

  lemma MutexUnlockSound(s: State, id: nat)
    requires Sound(s) && Cur(s).pc == Outside && Cur(s).stat == Running
    ensures Sound(MutexUnlock(s, id).0)
    ensures Urgent(s.k) && !Omits(s, OpUnlock(id)) ==> Urgent(MutexUnlock(s, id).0.k)
  {
    hide Whole, ObjectsGood, MutexesGood, Released, GiveUp, Awaken;
    CallingRuns(s);
    if MutexOf(s, id).owner == Thread(s.k.cur) {
      var s1 := GiveUp(s, id);
      GiveUpReleased(s, id);
      if Q(s1.k, MutexList(id)) == [] {
        FreeGood(s1, id);
      } else {
        HandOverGood(s1, id);
        WakeFlags(s1.k, MutexList(id));
        RescheduledSound(Take(WakeHead(s1, MutexList(id)), id, Q(s1.k, MutexList(id))[0]));
      }
    }
  }

  // A wake-up leaves the interrupt state alone, and a current thread that is not blocked.
  lemma WakeFlags(k: Core, l: ListId)
    requires Whole(k) && Q(k, l) != [] && !l.ReadyList?
    ensures Undisturbed(k, Awaken(k, Q(k, l)[0], EOK))
  {
    hide Linked, BitsOk, ThreadOk;
    OnWait(k, Q(k, l)[0], l);
    AwakenOk(k, Q(k, l)[0], EOK);
  }

  lemma LeaveSound(s: State)
    requires Sound(s) && (s.k.nest == 0 ==> s.k.cur != s.k.idle)
    ensures Sound(Leave(s)) && OnlyReady(s.k, Leave(s).k, s.k.cur)
    ensures Urgent(s.k) ==> Urgent(Leave(s).k)
  {
    hide Linked, BitsOk, ObjectsGood, MutexesGood;
    CallingRuns(s);
    if s.k.nest == 0 {
      PutPcOk(s.k, s.k.cur);
      PutOnly(s.k, s.k.cur, Cur(s).(pc := Outside));
      MinorGood(s, Leave(s).k, s.k.cur);
    }
  }

  lemma QueuesSound(s: State, id: nat, q: Queue)
    requires Sound(s) && |q.msgs| <= q.max && 1 <= q.max && q.sent == q.got + q.msgs
    ensures Sound(s.(queues := s.queues[id := q]))
  {
    hide Whole, MutexesGood;
    var s' := s.(queues := s.queues[id := q]);
    forall x ensures SemGood(s', x) && QueueGood(s', x) && EventGood(s', x) && JoinGood(s', x) {
      assert SemGood(s, x) && QueueGood(s, x) && EventGood(s, x) && JoinGood(s, x);
      forall t | t in Q(s'.k, EventList(x)) ensures Content(s', x, t) { assert Content(s, x, t); }
    }
    SameMutexes(s, s');
  }

  lemma WakeOneSound(s: State, l: ListId)
    requires Sound(s) && !l.ReadyList? && !l.MutexList?
    ensures Sound(WakeOne(s, l))
    ensures Urgent(s.k) ==> Urgent(WakeOne(s, l).k)
  {
    hide Whole, ObjectsGood, MutexesGood;
    if Q(s.k, l) != [] {
      WakeHeadGood(s, l);
      RescheduledSound(WakeHead(s, l));
    }
  }

  lemma QueueSendSound(s: State, id: nat, msg: nat, timeout: Timeout)
    requires Sound(s) && MayCall(s, timeout)
    ensures Sound(QueueSend(s, id, msg, timeout).0)
    ensures Urgent(s.k) ==> Urgent(QueueSend(s, id, msg, timeout).0.k)
  {
    hide Whole, ObjectsGood, MutexesGood;
    CallingRuns(s);
    LeaveSound(s);
    var q := QueueOf(s, id);
    assert QueueGood(s, id) by { QueueFact(s, id); }
    if |q.msgs| == q.max {
      if !timeout.NoWait? { WaitSound(s, SendQueue(id, msg, timeout)); }
    } else {
      var q' := q.(msgs := q.msgs + [msg], sent := q.sent + [msg]);
      QueuesSound(Leave(s), id, q');
      WakeOneSound(Leave(s).(queues := s.queues[id := q']), RecvList(id));
    }
  }

  lemma QueueFact(s: State, id: nat)
    requires ObjectsGood(s)
    ensures QueueGood(s, id)
  {
  }

  lemma QueueRecvSound(s: State, id: nat, timeout: Timeout)
    requires Sound(s) && MayCall(s, timeout)
    ensures Sound(QueueRecv(s, id, timeout).0)
    ensures Urgent(s.k) ==> Urgent(QueueRecv(s, id, timeout).0.k)
  {
    hide Whole, ObjectsGood, MutexesGood;
    CallingRuns(s);
    LeaveSound(s);
    var q := QueueOf(s, id);
    QueueFact(s, id);
    if q.msgs == [] {
      if !timeout.NoWait? { WaitSound(s, RecvQueue(id, timeout)); }
    } else {
      var q' := q.(msgs := q.msgs[1..], got := q.got + [q.msgs[0]]);
      assert q'.sent == q'.got + q'.msgs;
      QueuesSound(Leave(s), id, q');
      WakeOneSound(Leave(s).(queues := s.queues[id := q']), SendList(id));
    }
  }

  lemma PoolsSound(s: State, id: nat, p: Pool)
    requires Sound(s)
    ensures Sound(s.(pools := s.pools[id := p]))
  {
    hide Whole;
    var s' := s.(pools := s.pools[id := p]);
    SameObjects(s, s');
    SameMutexes(s, s');
  }

  lemma PoolAllocSound(s: State, id: nat, timeout: Timeout)
    requires Sound(s) && MayCall(s, timeout)
    ensures Sound(PoolAlloc(s, id, timeout).0)
    ensures Urgent(s.k) ==> Urgent(PoolAlloc(s, id, timeout).0.k)
  {
    hide Whole, ObjectsGood, MutexesGood;
    CallingRuns(s);
    LeaveSound(s);
    var p := PoolOf(s, id);
    if p.free == 0 {
      if !timeout.NoWait? { WaitSound(s, AllocPool(id, timeout)); }
    } else {
      PoolsSound(Leave(s), id, p.(free := p.free - 1));
    }
  }

  lemma PoolFreeSound(s: State, id: nat)
    requires Sound(s)
    ensures Sound(PoolFree(s, id))
    ensures Urgent(s.k) ==> Urgent(PoolFree(s, id).k)
  {
    hide Whole, ObjectsGood, MutexesGood;
    var p := PoolOf(s, id);
    PoolsSound(s, id, p.(free := p.free + 1));
    WakeOneSound(s.(pools := s.pools[id := p.(free := p.free + 1)]), PoolList(id));
  }

  // ----- Events

  // Clearing bits satisfies nobody.
  lemma FewerBits(bits: set<nat>, less: set<nat>, mask: set<nat>, every: bool)
    requires less <= bits && Satisfied(less, mask, every)
    ensures Satisfied(bits, mask, every)
  {
    if every {
      assert forall b | b in mask :: b in less * mask;
    } else {
      var b :| b in less * mask;
      assert b in bits * mask;
    }
  }

  // In the middle of the walk: waiters still to visit are in rest, the others are content.
  ghost predicate Walking(s: State, id: nat, rest: seq<Tid>) {
    && Whole(s.k) && MutexesGood(s)
    && (forall x {:trigger SemGood(s, x)} :: SemGood(s, x)) && (forall x {:trigger QueueGood(s, x)} :: QueueGood(s, x))
    && (forall x {:trigger EventGood(s, x)} :: x != id ==> EventGood(s, x)) && (forall t {:trigger JoinGood(s, t)} :: JoinGood(s, t))
    && NoDup(rest) && (forall t | t in rest :: t in Q(s.k, EventList(id)))
    && (forall t {:trigger Content(s, id, t)} | t in Q(s.k, EventList(id)) && t !in rest :: Content(s, id, t))
  }

  lemma WalkWake(s: State, id: nat, rest: seq<Tid>)
    requires Walking(s, id, rest) && rest != []
    ensures var c := T(s.k, rest[0]);
      Walking(s.(events := s.events[id := EventOf(s, id) - c.mask], k := Awaken(s.k, rest[0], c.error)), id, rest[1..])
  {
    hide Whole, Satisfied, Awaken;
    var h, c := rest[0], T(s.k, rest[0]);
    var k := Awaken(s.k, h, c.error);
    var s1, s' := s.(k := k), s.(events := s.events[id := EventOf(s, id) - c.mask], k := k);
    OnWait(s.k, h, EventList(id));
    AwakenOk(s.k, h, c.error);
    WalkWakeObjects(s, id, h, k);
    assert LockGood(s, h);
    LeftMutexes(s, k, h);
    SameMutexes(s1, s');
    LeftWaiters(s.k, k, h, EventList(id));
    forall t | t in Q(k, EventList(id)) && t !in rest[1..] ensures Content(s', id, t) {
      assert Content(s, id, t) && T(k, t) == T(s.k, t);
      if !Content(s', id, t) { FewerBits(EventOf(s, id), EventOf(s', id), T(k, t).mask, T(k, t).every); }
    }
  }

  lemma WalkWakeObjects(s: State, id: nat, h: Tid, k: Core)
    requires Whole(s.k) && Leaves(s.k, k, h) && T(k, h).stat == Ready
    requires (forall x {:trigger SemGood(s, x)} :: SemGood(s, x)) && (forall x {:trigger QueueGood(s, x)} :: QueueGood(s, x))
    requires (forall x {:trigger EventGood(s, x)} :: x != id ==> EventGood(s, x)) && (forall t {:trigger JoinGood(s, t)} :: JoinGood(s, t))
    ensures var s' := s.(events := s.events[id := EventOf(s, id) - T(s.k, h).mask], k := k);
      && (forall x {:trigger SemGood(s', x)} :: SemGood(s', x)) && (forall x {:trigger QueueGood(s', x)} :: QueueGood(s', x))
      && (forall x {:trigger EventGood(s', x)} :: x != id ==> EventGood(s', x)) && (forall t {:trigger JoinGood(s', t)} :: JoinGood(s', t))
  {
    hide Whole;
    var s' := s.(events := s.events[id := EventOf(s, id) - T(s.k, h).mask], k := k);
    forall x ensures SemGood(s', x) && QueueGood(s', x) && JoinGood(s', x) {
      assert SemGood(s, x) && QueueGood(s, x) && JoinGood(s, x);
      LeftWaiters(s.k, k, h, SemList(x));
      LeftWaiters(s.k, k, h, JoinList(x));
      assert x != h ==> T(k, x) == T(s.k, x);
    }
    forall x | x != id ensures EventGood(s', x) {
      assert EventGood(s, x);
      LeftWaiters(s.k, k, h, EventList(x));
      forall t | t in Q(k, EventList(x)) ensures Content(s', x, t) {
        assert Content(s, x, t) && T(k, t) == T(s.k, t);
      }
    }
  }

  lemma WalkSkip(s: State, id: nat, rest: seq<Tid>)
    requires Walking(s, id, rest) && rest != [] && !Satisfied(EventOf(s, id), T(s.k, rest[0]).mask, T(s.k, rest[0]).every)
    ensures Walking(s, id, rest[1..])
  {
    hide Whole;
    assert Content(s, id, rest[0]);
    assert rest == [rest[0]] + rest[1..];
  }

  lemma WalkDone(s: State, id: nat)
    requires Walking(s, id, [])
    ensures Good(s)
  {
    hide Whole;
    assert EventGood(s, id);
  }

  // The interrupt state and a running current thread stay as they are.
  ghost predicate Undisturbed(k: Core, k': Core) {
    k'.nest == k.nest && k'.asked == k.asked && k'.cur == k.cur && (T(k, k.cur).stat != Block ==> T(k', k.cur) == T(k, k.cur))
  }

  // The walk ends with no waiter satisfied.
  lemma {:induction false} WalkGood(s: State, id: nat, rest: seq<Tid>)
    requires Walking(s, id, rest)
    ensures Good(EventWalk(s, id, rest)) && Undisturbed(s.k, EventWalk(s, id, rest).k)
    decreases |rest|
  {
    hide Walking, Good, Satisfied;
    if rest == [] {
      WalkDone(s, id);
    } else {
      var c := T(s.k, rest[0]);
      if Satisfied(EventOf(s, id), c.mask, c.every) {
        WalkWake(s, id, rest);
        WalkCalm(s, id, rest);
        WalkGood(s.(events := s.events[id := EventOf(s, id) - c.mask], k := Awaken(s.k, rest[0], c.error)), id, rest[1..]);
      } else {
        WalkSkip(s, id, rest);
        WalkGood(s, id, rest[1..]);
      }
    }
  }

  lemma WalkCalm(s: State, id: nat, rest: seq<Tid>)
    requires Walking(s, id, rest) && rest != []
    ensures Undisturbed(s.k, Awaken(s.k, rest[0], T(s.k, rest[0]).error))
  {
    hide Whole;
    OnWait(s.k, rest[0], EventList(id));
    AwakenOk(s.k, rest[0], T(s.k, rest[0]).error);
  }

  lemma EventSendSound(s: State, id: nat, bits: set<nat>)
    requires Sound(s)
    ensures Sound(EventSend(s, id, bits))
    ensures Urgent(s.k) ==> Urgent(EventSend(s, id, bits).k)
  {
    hide Whole, ObjectsGood, MutexesGood, Walking, Urgent;
    var s1 := s.(events := s.events[id := EventOf(s, id) + bits]);
    WalkStart(s, id, bits);
    WalkGood(s1, id, Q(s.k, EventList(id)));
    RescheduledSound(EventWalk(s1, id, Q(s.k, EventList(id))));
  }

  // More bits: only the waiters of this event may be satisfied now.
  lemma WalkStart(s: State, id: nat, bits: set<nat>)
    requires Good(s)
    ensures Walking(s.(events := s.events[id := EventOf(s, id) + bits]), id, Q(s.k, EventList(id)))
  {
    hide Whole;
    var s1 := s.(events := s.events[id := EventOf(s, id) + bits]);
    forall x ensures SemGood(s1, x) && QueueGood(s1, x) && JoinGood(s1, x) {
      assert SemGood(s, x) && QueueGood(s, x) && JoinGood(s, x);
    }
    forall x | x != id ensures EventGood(s1, x) {
      assert EventGood(s, x);
      forall t | t in Q(s.k, EventList(x)) ensures Content(s1, x, t) { assert Content(s, x, t); }
    }
    SameMutexes(s, s1);
    WaitersOnce(s.k, EventList(id));
  }

  lemma WaitersOnce(k: Core, l: ListId)
    requires Whole(k)
    ensures NoDup(Q(k, l))
  {
    assert ListOk(k, l);
  }

  lemma EventRecvSound(s: State, id: nat, mask: set<nat>, every: bool, timeout: Timeout)
    requires Sound(s) && MayCall(s, timeout)
    ensures Sound(EventRecv(s, id, mask, every, timeout).0)
    ensures Urgent(s.k) ==> Urgent(EventRecv(s, id, mask, every, timeout).0.k)
  {
    hide Whole, ObjectsGood, MutexesGood, Urgent, SameSide, Pended, Put;
    CallingRuns(s);
    var s1 := s.(k := Put(s.k, s.k.cur, Cur(s).(mask := mask, every := every)));
    MaskSound(s, mask, every);
    if Satisfied(EventOf(s, id), mask, every) {
      FewerGood(s1, id, mask);
    } else if !timeout.NoWait? {
      WaitSound(s1, RecvEvent(id, timeout));
    }
  }

  lemma MaskSound(s: State, mask: set<nat>, every: bool)
    requires Sound(s)
    ensures var s1 := s.(k := Put(s.k, s.k.cur, Cur(s).(mask := mask, every := every)));
      Sound(s1) && (Urgent(s.k) ==> Urgent(s1.k)) && Cur(s1) == Cur(s).(mask := mask, every := every) && s1.k.idle == s.k.idle && s1.k.cur == s.k.cur && s1.k.nest == s.k.nest
  {
    hide Linked, BitsOk, ObjectsGood, MutexesGood;
    var c := Cur(s).(mask := mask, every := every);
    var k := Put(s.k, s.k.cur, c);
    PutWhole(s.k, s.k.cur, c);
    PutOnly(s.k, s.k.cur, c);
    MinorGood(s, k, s.k.cur);
    if Urgent(s.k) { SameUrgency(s.k, k); }
  }

  lemma FewerGood(s: State, id: nat, mask: set<nat>)
    requires Good(s)
    ensures Good(s.(events := s.events[id := EventOf(s, id) - mask]))
  {
    hide Whole;
    var s' := s.(events := s.events[id := EventOf(s, id) - mask]);
    forall x ensures SemGood(s', x) && QueueGood(s', x) && JoinGood(s', x) && EventGood(s', x) {
      assert SemGood(s, x) && QueueGood(s, x) && JoinGood(s, x) && EventGood(s, x);
      forall t | t in Q(s.k, EventList(x)) ensures Content(s', x, t) {
        assert Content(s, x, t);
        if !Content(s', x, t) { FewerBits(EventOf(s, x), EventOf(s', x), T(s.k, t).mask, T(s.k, t).every); }
      }
    }
    SameMutexes(s, s');
  }

  // ----- Threads

  lemma JoinSound(s: State, t: Tid, timeout: Timeout)
    requires Sound(s) && MayCall(s, timeout)
    ensures Sound(ThreadJoin(s, t, timeout).0)
    ensures Urgent(s.k) ==> Urgent(ThreadJoin(s, t, timeout).0.k)
  {
    hide Whole, ObjectsGood, MutexesGood;
    CallingRuns(s);
    if t != s.k.cur && T(s.k, t).stat != Dead && !timeout.NoWait? {
      WaitSound(s, JoinThread(t, timeout));
    }
  }

  lemma DelaySound(s: State, n: nat)
    requires Sound(s) && Calling(s)
    ensures Sound(ThreadDelay(s, n))
    ensures Urgent(s.k) ==> Urgent(ThreadDelay(s, n).k)
  {
    hide Whole, ObjectsGood, MutexesGood, Urgent;
    CallingRuns(s);
    DelayGood(s, n);
    RescheduledSound(s.(k := DelayStart(s.k, n)));
  }

  lemma DelayGood(s: State, n: nat)
    requires Sound(s) && Calling(s)
    ensures Good(s.(k := DelayStart(s.k, n))) && OnlyReady(s.k, DelayStart(s.k, n), s.k.cur)
  {
    hide Linked, BitsOk;
    CallingRuns(s);
    var k, t := DelayStart(s.k, n), s.k.cur;
    DelayStartOk(s.k, n);
    var s1 := s.(k := k);
    forall x ensures SemGood(s1, x) && QueueGood(s1, x) {
      assert SemGood(s, x) && QueueGood(s, x);
      assert Q(k, SemList(x)) == Q(s.k, SemList(x));
    }
    forall x ensures EventGood(s1, x) {
      assert EventGood(s, x) && Q(k, EventList(x)) == Q(s.k, EventList(x));
      assert t !in Q(s.k, EventList(x)) by { NotWaiting(s.k, t, EventList(x)); }
      forall y | y in Q(k, EventList(x)) ensures Content(s1, x, y) { assert Content(s, x, y) && T(k, y) == T(s.k, y); }
    }
    forall x ensures JoinGood(s1, x) {
      assert JoinGood(s, x) && Q(k, JoinList(x)) == Q(s.k, JoinList(x));
      assert x != t ==> T(k, x) == T(s.k, x);
    }
    DelayMutexes(s, n);
  }

  lemma DelayMutexes(s: State, n: nat)
    requires MutexesGood(s) && OnlyReady(s.k, DelayStart(s.k, n), s.k.cur)
    ensures MutexesGood(s.(k := DelayStart(s.k, n)))
  {
    var s1 := s.(k := DelayStart(s.k, n));
    forall x ensures MutexGood(s1, x) && TakenGood(s1, x) && LockGood(s1, x) {
      assert MutexGood(s, x) && TakenGood(s, x) && LockGood(s, x);
      assert Q(s1.k, MutexList(x)) == Q(s.k, MutexList(x));
      assert x != s.k.cur ==> T(s1.k, x) == T(s.k, x);
    }
  }

  lemma YieldSound(s: State)
    requires Sound(s)
    ensures Sound(ThreadYield(s))
    ensures Urgent(s.k) ==> Urgent(ThreadYield(s).k)
  {
    hide Linked, BitsOk, ObjectsGood, MutexesGood;
    var c, s1 := Cur(s).(yielding := true), s.(k := Put(s.k, s.k.cur, Cur(s).(yielding := true)));
    PutWhole(s.k, s.k.cur, c);
    PutOnly(s.k, s.k.cur, c);
    SideGood(s, s1.k);
    RescheduledSound(s1);
  }

  lemma ResumeSound(s: State, t: Tid)
    requires Sound(s) && t in s.k.tcb
    ensures Sound(ThreadResume(s, t).0)
    ensures Urgent(s.k) ==> Urgent(ThreadResume(s, t).0.k)
  {
    hide Linked, BitsOk, ObjectsGood, MutexesGood;
    if T(s.k, t).stat == Suspend {
      ResumeOk(s.k, t);
      var s1 := s.(k := AddTail(Put(s.k, t, T(s.k, t).(stat := Ready)), t));
      MinorGood(s, s1.k, t);
      RescheduledSound(s1);
    }
  }

  lemma RetireFlags(k: Core, t: Tid, s: Stat)
    requires Whole(k) && t in k.tcb && t != k.idle && (s == Suspend || s == Dead)
    ensures var k' := Retire(k, t, s);
      k'.cur == k.cur && k'.nest == k.nest && k'.asked == k.asked && (t != k.cur ==> T(k', k.cur) == T(k, k.cur)) && T(k', t).stat == s
    ensures T(k, t).stat == Ready && t != k.cur && Urgent(k) ==> Urgent(Retire(k, t, s))
  {
    hide Linked, BitsOk;
    RetireOk(k, t, s);
    if T(k, t).stat == Ready && t != k.cur && Urgent(k) { SameUrgency(k, Retire(k, t, s)); }
  }

  lemma SuspendSound(s: State, t: Tid)
    requires Sound(s) && t in s.k.tcb && t != s.k.idle
    ensures Sound(ThreadSuspend(s, t).0)
    ensures Urgent(s.k) ==> Urgent(ThreadSuspend(s, t).0.k)
  {
    hide Whole, ObjectsGood, MutexesGood, Urgent, SameSide, Retire;
    if Taken(s, t) == [] && T(s.k, t).stat != Dead && T(s.k, t).stat != Suspend {
      RetireGood(s, t);
      RetireFlags(s.k, t, Suspend);
      var s1 := s.(k := Retire(s.k, t, Suspend));
      if T(s.k, t).stat != Ready {
        RescheduledSound(s1);
      } else if t == s.k.cur {
        assert s.k.asked;
        assert Urgent(s1.k) by { AskedUrgent(s1.k); }
      }
    }
  }

  lemma AskedUrgent(k: Core)
    requires k.asked
    ensures Urgent(k)
  {
  }

  lemma AbortSound(s: State, t: Tid)
    requires Sound(s) && t in s.k.tcb
    ensures Sound(ThreadAbort(s, t).0)
    ensures Urgent(s.k) && !Omits(s, OpAbort(t)) ==> Urgent(ThreadAbort(s, t).0.k)
  {
    hide Whole, ObjectsGood, MutexesGood, ObjectsGoodBut, Urgent, Retire;
    if T(s.k, t).stat != Dead && !T(s.k, t).essential {
      RetireOther(s.k, t);
      RetireGood(s, t);
      var s1 := s.(k := Retire(s.k, t, Dead));
      WakeAllGood(s1, t);
      if t == s.k.cur {
        RescheduledSound(s1.(k := WakeAll(s1.k, JoinList(t))));
      } else if Urgent(s.k) && Q(s.k, JoinList(t)) == [] {
        AbortUrgent(s, t);
      }
    }
  }

  lemma RetireOther(k: Core, t: Tid)
    requires Whole(k) && t in k.tcb && !T(k, t).essential
    ensures var k' := Retire(k, t, Dead);
      && t != k.idle && k'.cur == k.cur && k'.nest == k.nest && k'.asked == k.asked
      && T(k', t).stat == Dead && (t != k.cur ==> T(k', k.cur) == T(k, k.cur))
  {
    RetireOk(k, t, Dead);
  }

  lemma AbortUrgent(s: State, t: Tid)
    requires Good(s) && Urgent(s.k) && t in s.k.tcb && t != s.k.idle && t != s.k.cur && Q(s.k, JoinList(t)) == []
    ensures Urgent(WakeAll(Retire(s.k, t, Dead), JoinList(t)))
  {
    hide Linked, BitsOk, ObjectsGood, MutexesGood;
    RetireOk(s.k, t, Dead);
    var k := Retire(s.k, t, Dead);
    assert Q(k, JoinList(t)) == [];
    SameUrgency(s.k, k);
  }

  lemma CreateSound(s: State, t: Tid, prio: nat, essential: bool)
    requires Sound(s) && t !in s.k.tcb
    ensures Sound(ThreadCreate(s, t, prio, essential).0)
    ensures Urgent(s.k) ==> Urgent(ThreadCreate(s, t, prio, essential).0.k)
  {
    hide Whole, ObjectsGood, MutexesGood, Urgent, Create;
    if prio < PRIOS {
      CreateSoundly(s, t, prio, essential);
      RescheduledSound(s.(k := Create(s.k, t, prio, essential)));
    }
  }

  lemma CreateSoundly(s: State, t: Tid, prio: nat, essential: bool)
    requires Sound(s) && t !in s.k.tcb && prio < PRIOS
    ensures var k := Create(s.k, t, prio, essential); Good(s.(k := k)) && k.nest == s.k.nest && k.asked == s.k.asked && k.cur == s.k.cur && T(k, s.k.cur) == Cur(s)
  {
    hide Linked, BitsOk;
    var k := Create(s.k, t, prio, essential);
    CreateOk(s.k, t, prio, essential);
    CreateObjects(s, t, k);
    CreateMutexes(s, t, k);
  }

  lemma CreateObjects(s: State, t: Tid, k: Core)
    requires Good(s) && t !in s.k.tcb && (forall x {:trigger T(k, x)} :: x != t ==> T(k, x) == T(s.k, x))
    requires forall l: ListId {:trigger Q(k, l)} :: !l.ReadyList? ==> Q(k, l) == Q(s.k, l)
    ensures ObjectsGood(s.(k := k))
  {
    var s' := s.(k := k);
    forall x ensures SemGood(s', x) && QueueGood(s', x) && JoinGood(s', x) && EventGood(s', x) {
      assert SemGood(s, x) && QueueGood(s, x) && JoinGood(s, x) && EventGood(s, x);
      assert Q(k, SemList(x)) == Q(s.k, SemList(x)) && Q(k, EventList(x)) == Q(s.k, EventList(x)) && Q(k, JoinList(x)) == Q(s.k, JoinList(x));
      assert x != t ==> T(k, x) == T(s.k, x);
      assert ListOk(s.k, EventList(x));
      forall y | y in Q(k, EventList(x)) ensures Content(s', x, y) { assert Content(s, x, y) && T(k, y) == T(s.k, y); }
    }
  }

  lemma CreateMutexes(s: State, t: Tid, k: Core)
    requires Good(s) && t !in s.k.tcb && (forall x {:trigger T(k, x)} :: x != t ==> T(k, x) == T(s.k, x))
    requires forall l: ListId {:trigger Q(k, l)} :: !l.ReadyList? ==> Q(k, l) == Q(s.k, l)
    requires k.tcb.Keys == s.k.tcb.Keys + {t} && T(k, t).prio == T(k, t).init && T(k, t).pc == Outside
    ensures MutexesGood(s.(k := k))
  {
    hide Whole;
    var s' := s.(k := k);
    forall x ensures MutexGood(s', x) && TakenGood(s', x) && LockGood(s', x) {
      assert MutexGood(s, x) && TakenGood(s, x) && LockGood(s, x);
      assert Q(k, MutexList(x)) == Q(s.k, MutexList(x));
      assert x != t ==> T(k, x) == T(s.k, x);
    }
  }

  lemma NewHoldsNone(s: State, t: Tid)
    requires MutexesGood(s) && t !in s.k.tcb
    ensures Taken(s, t) == []
  {
    if Taken(s, t) != [] { NonEmpty(Taken(s, t)); }
    forall id ensures id !in Taken(s, t) {
      assert TakenGood(s, t) && MutexGood(s, id);
    }
  }

  lemma NonEmpty(q: seq<nat>)
    requires q != []
    ensures exists x :: x in q
  {
    assert q[0] in q;
  }

  lemma TimerSound(s: State, t: Tid)
    requires Sound(s) && s.k.nest > 0 && t in s.k.tcb && T(s.k, t).timer != Disarmed
    ensures Sound(TimerFires(s, t)) && T(s.k, t).stat == Block && Urgent(TimerFires(s, t).k)
  {
    hide Linked, BitsOk, ObjectsGood, MutexesGood;
    var e: Ending := if T(s.k, t).timer == PendTimer then ETIMEOUT else T(s.k, t).error;
    AwakenGood(s, t, e);
    AwakenOk(s.k, t, e);
    RescheduledSound(s.(k := Awaken(s.k, t, e)));
  }

  lemma FlagsGood(s: State, asked: bool, nest: nat)
    requires Good(s)
    ensures Good(s.(k := s.k.(asked := asked, nest := nest)))
  {
    hide Linked, BitsOk;
    var s' := s.(k := s.k.(asked := asked, nest := nest));
    FlagsWhole(s.k, asked, nest);
    assert forall x :: T(s'.k, x) == T(s.k, x);
    assert forall l :: Q(s'.k, l) == Q(s.k, l);
    forall x ensures SemGood(s', x) && QueueGood(s', x) && JoinGood(s', x) && EventGood(s', x) {
      assert SemGood(s, x) && QueueGood(s, x) && JoinGood(s, x) && EventGood(s, x);
      forall y | y in Q(s'.k, EventList(x)) ensures Content(s', x, y) { assert Content(s, x, y); }
    }
    forall x ensures MutexGood(s', x) && TakenGood(s', x) && LockGood(s', x) {
      assert MutexGood(s, x) && TakenGood(s, x) && LockGood(s, x);
    }
  }

  lemma EnterSound(s: State)
    requires Sound(s)
    ensures Sound(EnterIrq(s))
    ensures Urgent(s.k) ==> Urgent(EnterIrq(s).k)
  {
    hide Whole, ObjectsGood, MutexesGood;
    FlagsGood(s, s.k.asked, s.k.nest + 1);
    assert forall x :: T(EnterIrq(s).k, x) == T(s.k, x);
  }

  lemma ExitSound(s: State)
    requires Sound(s) && s.k.nest > 0
    ensures Sound(ExitIrq(s))
    ensures Urgent(s.k) ==> Urgent(ExitIrq(s).k)
    ensures s.k.asked && s.k.nest == 1 ==> Optimal(ExitIrq(s).k)
  {
    hide Whole, ObjectsGood, MutexesGood;
    var n := s.k.nest - 1;
    FlagsGood(s, s.k.asked, n);
    assert forall x :: T(s.k.(nest := n), x) == T(s.k, x);
    if n == 0 && s.k.asked {
      FlagsGood(s, false, 0);
      var k := s.k.(asked := false, nest := 0);
      assert k == s.k.(nest := 0).(asked := false);
      ScheduleCoreOk(k);
      SideGood(s.(k := k), ScheduleCore(k));
    }
  }

  lemma ReturnSound(s: State)
    requires Sound(s) && s.k.nest == 0 && Cur(s).pc.Inside?
    ensures Sound(Return(s).0)
    ensures Urgent(s.k) ==> Urgent(Return(s).0.k)
  {
    hide Linked, BitsOk, ObjectsGood, MutexesGood, Urgent, QueueSend, QueueRecv, PoolAlloc;
    CallingRuns(s);
    LeaveSound(s);
    match Cur(s).pc {
      case Outside =>
      case Inside(call) =>
        match call
        case SendQueue(id, msg, timeout) => QueueSendSound(s, id, msg, timeout);
        case RecvQueue(id, timeout) => QueueRecvSound(s, id, timeout);
        case AllocPool(id, timeout) => PoolAllocSound(s, id, timeout);
        case _ =>
    }
  }

  // Every step of every run keeps the kernel sound.
  lemma StepSound(s: State, op: Op)
    requires Sound(s) && Legal(s, op)
    ensures Sound(Step(s, op).0)
    ensures Urgent(s.k) && !Omits(s, op) ==> Urgent(Step(s, op).0.k)
  {
    hide Sound, Urgent, SemTake, SemRelease, MutexLock, MutexUnlock, QueueSend, QueueRecv, PoolAlloc, PoolFree, EventSend,
      EventRecv,
      ThreadJoin, ThreadDelay, ThreadYield, ThreadSuspend, ThreadResume, ThreadAbort, ThreadCreate, EnterIrq, ExitIrq, TimerFires, Return;
    match op
    case OpSemTake(id, timeout) => SemTakeSound(s, id, timeout);
    case OpSemRelease(id) => SemReleaseSound(s, id);
    case OpLock(id, timeout) => MutexLockSound(s, id, timeout);
    case OpUnlock(id) => MutexUnlockSound(s, id);
    case OpSend(id, msg, timeout) => QueueSendSound(s, id, msg, timeout);
    case OpRecv(id, timeout) => QueueRecvSound(s, id, timeout);
    case OpAlloc(id, timeout) => PoolAllocSound(s, id, timeout);
    case OpFree(id) => PoolFreeSound(s, id);
    case OpEventSend(id, bits) => EventSendSound(s, id, bits);
    case OpEventRecv(id, mask, every, timeout) => EventRecvSound(s, id, mask, every, timeout);
    case OpJoin(t, timeout) => JoinSound(s, t, timeout);
    case OpDelay(n) => DelaySound(s, n);
    case OpYield => YieldSound(s);
    case OpSuspend(t) => SuspendSound(s, t);
    case OpResume(t) => ResumeSound(s, t);
    case OpAbort(t) => AbortSound(s, t);
    case OpCreate(t, prio, essential) => CreateSound(s, t, prio, essential);
    case OpEnter => EnterSound(s);
    case OpExit => ExitSound(s);
    case OpTimer(t) => TimerSound(s, t);
    case OpSlice(t) => YieldSound(s);
    case OpReturn => ReturnSound(s);
  }
}
