// What each step does to the objects and answers its caller, and what that adds up to over whole runs.
module Effects {
  import opened BitOps
  import opened KernelCore
  import opened Ipc
  import opened Runs

  // The call a step works for: its own, or the one a dispatched thread is in when it looks again for room, a message or a
  // block.
  function Effective(s: State, op: Op): Op {
    if !op.OpReturn? || !Cur(s).pc.Inside? || Cur(s).error == ETIMEOUT then op
    else
      match Cur(s).pc.call
      case SendQueue(id, msg, timeout) => OpSend(id, msg, timeout)
      case RecvQueue(id, timeout) => OpRecv(id, timeout)
      case AllocPool(id, timeout) => OpAlloc(id, timeout)
      case _ => op
  }

  // Looking again is making the call again.
  lemma LooksAgain(s: State, op: Op)
    ensures Step(s, op) == Step(s, Effective(s, op))
  {
    hide QueueSend, QueueRecv, PoolAlloc, Leave;
  }

  // The walk of an event send concerns no object but its event.
  lemma {:induction false} WalkKeeps(s: State, id: nat, rest: seq<Tid>)
    ensures var s' := EventWalk(s, id, rest);
      && s'.sems == s.sems && s'.mutexes == s.mutexes && s'.taken == s.taken && s'.queues == s.queues && s'.pools == s.pools
      && forall e {:trigger EventOf(s', e)} | e != id :: EventOf(s', e) == EventOf(s, e)
    decreases |rest|
  {
    hide Awaken, Satisfied;
    if rest != [] {
      var c := T(s.k, rest[0]);
      if Satisfied(EventOf(s, id), c.mask, c.every) {
        WalkKeeps(s.(events := s.events[id := EventOf(s, id) - c.mask], k := Awaken(s.k, rest[0], c.error)), id, rest[1..]);
      } else {
        WalkKeeps(s, id, rest[1..]);
      }
    }
  }

  lemma EventSendKeeps(s: State, id: nat, bits: set<nat>)
    ensures var s' := EventSend(s, id, bits);
      && s'.sems == s.sems && s'.mutexes == s.mutexes && s'.taken == s.taken && s'.queues == s.queues && s'.pools == s.pools
      && forall e {:trigger EventOf(s', e)} | e != id :: EventOf(s', e) == EventOf(s, e)
  {
    hide EventWalk, Schedule;
    var s1 := s.(events := s.events[id := EventOf(s, id) + bits]);
    var s' := EventSend(s, id, bits);
    WalkKeeps(s1, id, Q(s.k, EventList(id)));
    forall e | e != id ensures EventOf(s', e) == EventOf(s, e) { assert EventOf(EventWalk(s1, id, Q(s.k, EventList(id))), e) == EventOf(s1, e); }
  }

  // ----- Which objects a call can change at all

  // Threads, lists and the interrupt state aside.
  ghost predicate ThreadsOnly(s: State, s': State) { s' == s.(k := s'.k) }

  lemma WaitOnly(s: State, call: Call)
    requires !call.DelayFor?
    ensures ThreadsOnly(s, Wait(s, call))
  {
  }

  lemma LeaveOnly(s: State)
    ensures ThreadsOnly(s, Leave(s))
  {
  }

  lemma WakeOneOnly(s: State, l: ListId)
    ensures ThreadsOnly(s, WakeOne(s, l))
  {
    hide Awaken, Schedule;
  }

  lemma ThreadCallsOnly(s: State, op: Op)
    requires !op.OnObject() && !op.OpReturn?
    ensures ThreadsOnly(s, Step(s, op).0)
  {
    hide ThreadJoin, ThreadDelay, ThreadYield, ThreadSuspend, ThreadResume, ThreadAbort, ThreadCreate, ExitIrq, TimerFires, SliceTimeout;
    match op {
      case OpJoin(t, timeout) => JoinOnly(s, t, timeout);
      case OpDelay(n) => RestOnly(s, 0, n);
      case OpYield => RestOnly(s, 0, 0);
      case OpSlice(t) => RestOnly(s, t, 0);
      case OpSuspend(t) => StopOnly(s, t);
      case OpResume(t) => StartOnly(s, t, 0, false);
      case OpAbort(t) => AbortOnly(s, t);
      case OpCreate(t, prio, essential) => StartOnly(s, t, prio, essential);
      case OpTimer(t) => RestOnly(s, t, 0);
      case OpEnter =>
      case OpExit => ExitOnly(s);
    }
  }

  lemma JoinOnly(s: State, t: Tid, timeout: Timeout)
    ensures ThreadsOnly(s, ThreadJoin(s, t, timeout).0)
  {
    hide Schedule, Pend;
  }

  lemma RestOnly(s: State, t: Tid, n: nat)
    ensures ThreadsOnly(s, ThreadDelay(s, n)) && ThreadsOnly(s, ThreadYield(s))
    ensures ThreadsOnly(s, SliceTimeout(s, t)) && ThreadsOnly(s, TimerFires(s, t))
  {
    hide Schedule, DelayStart, Put, Awaken;
  }

  lemma StopOnly(s: State, t: Tid)
    ensures ThreadsOnly(s, ThreadSuspend(s, t).0) && ThreadsOnly(s, ThreadHalt(s, t))
  {
    hide Schedule, Retire, WakeAll;
  }

  lemma AbortOnly(s: State, t: Tid)
    ensures ThreadsOnly(s, ThreadAbort(s, t).0)
  {
    hide ThreadHalt;
    StopOnly(s, t);
  }

  lemma StartOnly(s: State, t: Tid, prio: nat, essential: bool)
    ensures ThreadsOnly(s, ThreadResume(s, t).0) && ThreadsOnly(s, ThreadCreate(s, t, prio, essential).0)
  {
    hide Schedule, AddTail, Put, Create;
  }

  lemma ExitOnly(s: State)
    ensures ThreadsOnly(s, ExitIrq(s))
  {
    hide ScheduleCore;
  }

  lemma SemOnly(s: State, id: nat, timeout: Timeout)
    ensures var s' := SemTake(s, id, timeout).0; s' == s.(k := s'.k, sems := s'.sems)
    ensures var s' := SemRelease(s, id); s' == s.(k := s'.k, sems := s'.sems)
  {
    hide Awaken, Schedule, Pend;
  }

  lemma MutexOnly(s: State, id: nat, timeout: Timeout)
    ensures var s' := MutexLock(s, id, timeout).0; s' == s.(k := s'.k, mutexes := s'.mutexes, taken := s'.taken)
    ensures var s' := MutexUnlock(s, id).0; s' == s.(k := s'.k, mutexes := s'.mutexes, taken := s'.taken)
  {
    hide Awaken, Schedule, Pend, ChangePrio, LeastPrio, Put;
  }

  lemma EventRecvOnly(s: State, id: nat, mask: set<nat>, every: bool, timeout: Timeout)
    ensures var s' := EventRecv(s, id, mask, every, timeout).0; s' == s.(k := s'.k, events := s'.events)
  {
    hide Schedule, Pend, Put, Satisfied;
  }

  lemma PoolFreeOnly(s: State, id: nat)
    ensures var (s', p) := (PoolFree(s, id), PoolOf(s, id)); s' == s.(k := s'.k, pools := s.pools[id := Pool(p.total, p.free + 1)])
  {
    hide WakeOne;
    WakeOneOnly(s.(pools := s.pools[id := PoolOf(s, id).(free := PoolOf(s, id).free + 1)]), PoolList(id));
  }

  lemma SendOnly(s: State, id: nat, msg: nat, timeout: Timeout)
    ensures var ((s', r), q) := (QueueSend(s, id, msg, timeout), QueueOf(s, id));
      && r == (if |q.msgs| != q.max then Done(EOK) else if timeout.NoWait? then Done(EFULL) else Blocked)
      && s' == s.(k := s'.k, queues := if r == Done(EOK) then s.queues[id := Queue(q.max, q.msgs + [msg], q.sent + [msg], q.got)] else s.queues)
  {
    hide WakeOne, Leave, Wait;
    var q := QueueOf(s, id);
    LeaveOnly(s);
    WaitOnly(s, SendQueue(id, msg, timeout));
    WakeOneOnly(Leave(s).(queues := s.queues[id := q.(msgs := q.msgs + [msg], sent := q.sent + [msg])]), RecvList(id));
  }

  lemma RecvOnly(s: State, id: nat, timeout: Timeout)
    ensures var ((s', r), q) := (QueueRecv(s, id, timeout), QueueOf(s, id));
      && r == (if q.msgs != [] then Done(EOK) else if timeout.NoWait? then Done(EEMPTY) else Blocked)
      && s' == s.(k := s'.k, queues := if r == Done(EOK) then s.queues[id := Queue(q.max, q.msgs[1..], q.sent, q.got + [q.msgs[0]])] else s.queues)
  {
    hide WakeOne, Leave, Wait;
    var q := QueueOf(s, id);
    LeaveOnly(s);
    WaitOnly(s, RecvQueue(id, timeout));
    if q.msgs != [] {
      WakeOneOnly(Leave(s).(queues := s.queues[id := q.(msgs := q.msgs[1..], got := q.got + [q.msgs[0]])]), SendList(id));
    }
  }

  lemma AllocOnly(s: State, id: nat, timeout: Timeout)
    ensures var ((s', r), p) := (PoolAlloc(s, id, timeout), PoolOf(s, id));
      && r == (if p.free > 0 then Done(EOK) else if timeout.NoWait? then Done(ERROR) else Blocked)
      && s' == s.(k := s'.k, pools := if r == Done(EOK) then s.pools[id := Pool(p.total, p.free - 1)] else s.pools)
  {
    hide Leave, Wait;
    LeaveOnly(s);
    WaitOnly(s, AllocPool(id, timeout));
  }

  // Coming back from a wait for good changes nothing but the caller.
  lemma ReturnOnly(s: State, op: Op)
    requires op.OpReturn? && Effective(s, op) == op
    ensures var (s', r) := Return(s); ThreadsOnly(s, s') && r == Done(if Cur(s).pc.Inside? then Cur(s).error else EOK)
  {
    hide QueueSend, QueueRecv, PoolAlloc, Leave;
    LeaveOnly(s);
  }

  // Each call concerns objects of one kind.
  ghost predicate OfOneKind(s: State, s': State, e: Op) {
    && (s'.sems == s.sems || e.OpSemTake? || e.OpSemRelease?) && (s'.queues == s.queues || e.OpSend? || e.OpRecv?)
    && (s'.pools == s.pools || e.OpAlloc? || e.OpFree?) && (s'.events == s.events || e.OpEventSend? || e.OpEventRecv?)
    && ((s'.mutexes == s.mutexes && s'.taken == s.taken) || e.OpLock? || e.OpUnlock?)
  }

  lemma OneKind(s: State, op: Op)
    ensures OfOneKind(s, Step(s, op).0, Effective(s, op))
  {
    hide Step, Return, Effective;
    LooksAgain(s, op);
    var e := Effective(s, op);
    if e.OnObject() {
      ObjectKind(s, e);
    } else if e.OpReturn? {
      EffectiveReturn(s, op);
      ReturnOnly(s, op);
      ReturnSteps(s);
    } else {
      ThreadCallsOnly(s, e);
    }
  }

  lemma ReturnSteps(s: State)
    ensures Step(s, OpReturn) == Return(s)
  {
  }

  lemma ObjectKind(s: State, e: Op)
    requires e.OnObject()
    ensures OfOneKind(s, Step(s, e).0, e)
  {
    hide SemTake, SemRelease, MutexLock, MutexUnlock, QueueSend, QueueRecv, PoolAlloc, PoolFree, EventSend, EventRecv;
    match e {
      case OpSemTake(id, timeout) => SemOnly(s, id, timeout);
      case OpSemRelease(id) => SemOnly(s, id, NoWait);
      case OpLock(id, timeout) => MutexOnly(s, id, timeout);
      case OpUnlock(id) => MutexOnly(s, id, NoWait);
      case OpSend(id, msg, timeout) => SendOnly(s, id, msg, timeout);
      case OpRecv(id, timeout) => RecvOnly(s, id, timeout);
      case OpAlloc(id, timeout) => AllocOnly(s, id, timeout);
      case OpFree(id) => PoolFreeOnly(s, id);
      case OpEventSend(id, bits) => EventSendKeeps(s, id, bits);
      case OpEventRecv(id, mask, every, timeout) => EventRecvOnly(s, id, mask, every, timeout);
    }
  }

  lemma EffectiveReturn(s: State, op: Op)
    requires Effective(s, op).OpReturn?
    ensures Effective(s, op) == op
  {
  }

  // ----- Queues

  // A send is answered by the room there is and a receive by the messages there are; the message sent goes behind those
  // stored, the first of those is taken out, and no other step changes a queue.
  lemma QueueStep(s: State, op: Op, id: nat)
    ensures var ((s', r), e, q) := (Step(s, op), Effective(s, op), QueueOf(s, id));
      if e.OpSend? && e.id == id then
        && r == (if |q.msgs| != q.max then Done(EOK) else if e.timeout.NoWait? then Done(EFULL) else Blocked)
        && QueueOf(s', id) == if r == Done(EOK) then Queue(q.max, q.msgs + [e.msg], q.sent + [e.msg], q.got) else q
      else if e.OpRecv? && e.id == id then
        && r == (if q.msgs != [] then Done(EOK) else if e.timeout.NoWait? then Done(EEMPTY) else Blocked)
        && QueueOf(s', id) == if r == Done(EOK) then Queue(q.max, q.msgs[1..], q.sent, q.got + [q.msgs[0]]) else q
      else QueueOf(s', id) == q
  {
    hide SemTake, SemRelease, MutexLock, MutexUnlock, QueueSend, QueueRecv, PoolAlloc, PoolFree, EventSend,
      EventRecv,
      ThreadJoin, ThreadDelay, ThreadYield, ThreadSuspend, ThreadResume, ThreadAbort, ThreadCreate, EnterIrq, ExitIrq, TimerFires,
      SliceTimeout, Return, Effective;
    LooksAgain(s, op);
    OneKind(s, op);
    match Effective(s, op) {
      case OpSend(x, msg, timeout) => SendOnly(s, x, msg, timeout);
      case OpRecv(x, timeout) => RecvOnly(s, x, timeout);
      case _ =>
    }
  }

  // The message sent to queue id by a step that reports a send as done.
  function SentBy(s: State, op: Op, id: nat): seq<nat> {
    var e := Effective(s, op);
    if e.OpSend? && e.id == id && Step(s, op).1 == Done(EOK) then [e.msg] else []
  }

  // The message at the front of queue id when a step reports a receive as done.
  function ReceivedBy(s: State, op: Op, id: nat): seq<nat> {
    var e, m := Effective(s, op), QueueOf(s, id).msgs;
    if e.OpRecv? && e.id == id && Step(s, op).1 == Done(EOK) && m != [] then [m[0]] else []
  }

  function SentIn(s: State, ops: seq<Op>, id: nat): seq<nat>
    decreases |ops|
  {
    if ops == [] then [] else SentBy(s, ops[0], id) + SentIn(Step(s, ops[0]).0, ops[1..], id)
  }

  function ReceivedIn(s: State, ops: seq<Op>, id: nat): seq<nat>
    decreases |ops|
  {
    if ops == [] then [] else ReceivedBy(s, ops[0], id) + ReceivedIn(Step(s, ops[0]).0, ops[1..], id)
  }

  lemma StepLogs(s: State, op: Op, id: nat)
    ensures var (q, q') := (QueueOf(s, id), QueueOf(Step(s, op).0, id));
      q'.max == q.max && q'.sent == q.sent + SentBy(s, op, id) && q'.got == q.got + ReceivedBy(s, op, id)
  {
    hide Step, Effective;
    QueueStep(s, op, id);
  }

  // The history kept with a queue is what the calls of the run were told.
  lemma {:induction false} RunLogs(s: State, ops: seq<Op>, id: nat)
    ensures var (q, q') := (QueueOf(s, id), QueueOf(RunAll(s, ops), id));
      q'.max == q.max && q'.sent == q.sent + SentIn(s, ops, id) && q'.got == q.got + ReceivedIn(s, ops, id)
    decreases |ops|
  {
    hide Step, Effective, SentBy, ReceivedBy;
    if ops != [] {
      var s' := Step(s, ops[0]).0;
      StepLogs(s, ops[0], id);
      RunLogs(s', ops[1..], id);
      assert QueueOf(s', id).sent + SentIn(s', ops[1..], id) == QueueOf(s, id).sent + SentIn(s, ops, id);
      assert QueueOf(s', id).got + ReceivedIn(s', ops[1..], id) == QueueOf(s, id).got + ReceivedIn(s, ops, id);
    }
  }

  // First in, first out over every run: what was received is the beginning of what was sent, and the rest of it, at most as
  // many messages as the queue holds, is stored in order.
  lemma RunFifo(s: State, ops: seq<Op>, id: nat)
    requires Sound(s) && Allowed(s, ops) && QueueOf(s, id).sent == []
    ensures var (sent, received, q) := (SentIn(s, ops, id), ReceivedIn(s, ops, id), QueueOf(RunAll(s, ops), id));
      sent == received + q.msgs && |q.msgs| <= q.max == QueueOf(s, id).max
  {
    hide Whole, MutexesGood, Allowed, RunAll, SentIn, ReceivedIn;
    RunSound(s, ops);
    RunLogs(s, ops, id);
    assert QueueGood(s, id) && QueueGood(RunAll(s, ops), id);
    assert |QueueOf(s, id).got| == 0;
    assert [] + SentIn(s, ops, id) == SentIn(s, ops, id) && [] + ReceivedIn(s, ops, id) == ReceivedIn(s, ops, id);
  }

  // ----- Semaphores

  // A take gets a unit at once exactly if there is one; a release stores its unit exactly if nobody waits, and hands it over
  // otherwise; no other step changes a semaphore.
  lemma SemStep(s: State, op: Op, id: nat)
    ensures var ((s', r), m) := (Step(s, op), SemOf(s, id));
      if op.OpSemTake? && op.id == id then
        && r == (if m.val > 0 then Done(EOK) else if op.timeout.NoWait? then Done(EBUSY) else Blocked)
        && SemOf(s', id) == if r == Done(EOK) then Sem(m.val - 1, m.init, m.released, m.granted + 1) else m
      else if op == OpSemRelease(id) then
        SemOf(s', id) == if Q(s.k, SemList(id)) == [] then Sem(m.val + 1, m.init, m.released + 1, m.granted)
                         else Sem(m.val, m.init, m.released + 1, m.granted + 1)
      else SemOf(s', id) == m
  {
    hide SemTake, SemRelease, MutexLock, MutexUnlock, QueueSend, QueueRecv, PoolAlloc, PoolFree, EventSend,
      EventRecv,
      ThreadJoin, ThreadDelay, ThreadYield, ThreadSuspend, ThreadResume, ThreadAbort, ThreadCreate, EnterIrq, ExitIrq, TimerFires,
      SliceTimeout, Return, Effective;
    OneKind(s, op);
    NoFree(s, op);
    match op {
      case OpSemTake(x, timeout) => TakeUnits(s, x, timeout);
      case OpSemRelease(x) => ReleaseUnits(s, x);
      case _ =>
    }
  }

  lemma TakeUnits(s: State, id: nat, timeout: Timeout)
    ensures var ((s', r), m) := (SemTake(s, id, timeout), SemOf(s, id));
      && r == (if m.val > 0 then Done(EOK) else if timeout.NoWait? then Done(EBUSY) else Blocked)
      && SemOf(s', id) == (if r == Done(EOK) then Sem(m.val - 1, m.init, m.released, m.granted + 1) else m)
      && forall x | x != id :: SemOf(s', x) == SemOf(s, x)
  {
    hide Schedule, Pend;
  }

  lemma ReleaseUnits(s: State, id: nat)
    ensures var (s', m) := (SemRelease(s, id), SemOf(s, id));
      && (if Q(s.k, SemList(id)) == [] then SemOf(s', id) == Sem(m.val + 1, m.init, m.released + 1, m.granted)
          else SemOf(s', id) == Sem(m.val, m.init, m.released + 1, m.granted + 1))
      && forall x | x != id :: SemOf(s', x) == SemOf(s, x)
  {
    hide Schedule, Awaken;
  }

  function ReleasesIn(ops: seq<Op>, id: nat): nat {
    if ops == [] then 0 else (if ops[0] == OpSemRelease(id) then 1 else 0) + ReleasesIn(ops[1..], id)
  }

  // The units of semaphore id the steps give to somebody: to a take that need not wait, or to one woken by a release.
  function GrantsIn(s: State, ops: seq<Op>, id: nat): nat
    decreases |ops|
  {
    if ops == [] then 0
    else
      var (s', r) := Step(s, ops[0]);
      (if ops[0].OpSemTake? && ops[0].id == id && r == Done(EOK) then 1
       else if ops[0] == OpSemRelease(id) && Q(s.k, SemList(id)) != [] then 1 else 0) + GrantsIn(s', ops[1..], id)
  }

  // Over every run a semaphore holds what it held, and each release, less the units given out; it is never overdrawn.
  lemma {:induction false} RunUnits(s: State, ops: seq<Op>, id: nat)
    requires Sound(s) && Allowed(s, ops)
    ensures var (m, m') := (SemOf(s, id), SemOf(RunAll(s, ops), id));
      && m'.val == m.val + ReleasesIn(ops, id) - GrantsIn(s, ops, id) && m'.init == m.init && (m.val >= 0 ==> m'.val >= 0)
      && m'.released == m.released + ReleasesIn(ops, id) && m'.granted == m.granted + GrantsIn(s, ops, id)
    decreases |ops|
  {
    hide Step, Sound, Legal;
    if ops != [] {
      StepSound(s, ops[0]);
      SemStep(s, ops[0], id);
      RunUnits(Step(s, ops[0]).0, ops[1..], id);
    }
  }

  // ----- Pools

  // An allocation gets a block exactly if one is free, a block given back is free at once, and nothing else changes a pool.
  lemma PoolStep(s: State, op: Op, id: nat)
    ensures var ((s', r), e, p) := (Step(s, op), Effective(s, op), PoolOf(s, id));
      if e.OpAlloc? && e.id == id then
        && r == (if p.free > 0 then Done(EOK) else if e.timeout.NoWait? then Done(ERROR) else Blocked)
        && PoolOf(s', id) == if r == Done(EOK) then Pool(p.total, p.free - 1) else p
      else PoolOf(s', id) == if op == OpFree(id) then Pool(p.total, p.free + 1) else p
  {
    hide SemTake, SemRelease, MutexLock, MutexUnlock, QueueSend, QueueRecv, PoolAlloc, PoolFree, EventSend,
      EventRecv,
      ThreadJoin, ThreadDelay, ThreadYield, ThreadSuspend, ThreadResume, ThreadAbort, ThreadCreate, EnterIrq, ExitIrq, TimerFires,
      SliceTimeout, Return, Effective;
    LooksAgain(s, op);
    OneKind(s, op);
    NoFree(s, op);
    match Effective(s, op) {
      case OpAlloc(x, timeout) => AllocOnly(s, x, timeout);
      case OpFree(x) => PoolFreeOnly(s, x);
      case _ =>
    }
  }

  // Only queue and pool calls are started over.
  lemma NoFree(s: State, op: Op)
    ensures var e := Effective(s, op); e == op || (op.OpReturn? && (e.OpSend? || e.OpRecv? || e.OpAlloc?))
  {
  }

  function FreesIn(ops: seq<Op>, id: nat): nat {
    if ops == [] then 0 else (if ops[0] == OpFree(id) then 1 else 0) + FreesIn(ops[1..], id)
  }

  function AllocsIn(s: State, ops: seq<Op>, id: nat): nat
    decreases |ops|
  {
    if ops == [] then 0
    else
      var ((s', r), e) := (Step(s, ops[0]), Effective(s, ops[0]));
      (if e.OpAlloc? && e.id == id && r == Done(EOK) then 1 else 0) + AllocsIn(s', ops[1..], id)
  }

  // Over every run the free blocks are those there were and those given back, less those allocated.
  lemma {:induction false} RunBlocks(s: State, ops: seq<Op>, id: nat)
    ensures PoolOf(RunAll(s, ops), id).free == PoolOf(s, id).free + FreesIn(ops, id) - AllocsIn(s, ops, id)
    decreases |ops|
  {
    hide Step, Effective;
    if ops != [] {
      NoFree(s, ops[0]);
      PoolStep(s, ops[0], id);
      RunBlocks(Step(s, ops[0]).0, ops[1..], id);
    }
  }

  // ----- Events

  // A receive gets its bits at once exactly if all, or any, of them are set, and then clears all of them; a send sets its
  // bits and clears at most some for the waiters it serves; nothing else changes an event.
  lemma EventStep(s: State, op: Op, id: nat)
    ensures var ((s', r), bits) := (Step(s, op), EventOf(s, id));
      if op.OpEventRecv? && op.id == id then
        var met := if op.every then op.mask <= bits else exists b :: b in op.mask && b in bits;
        && r == (if met then Done(EOK) else if op.timeout.NoWait? then Done(EBUSY) else Blocked)
        && forall b :: b in EventOf(s', id) <==> b in bits && (r == Done(EOK) ==> b !in op.mask)
      else if op.OpEventSend? && op.id == id then
        && (forall b | b in EventOf(s', id) :: b in bits || b in op.bits)
        && (Q(s.k, EventList(id)) == [] ==> forall b :: b in EventOf(s', id) <==> b in bits || b in op.bits)
      else EventOf(s', id) == bits
  {
    hide SemTake, SemRelease, MutexLock, MutexUnlock, QueueSend, QueueRecv, PoolAlloc, PoolFree, EventSend,
      EventRecv,
      ThreadJoin, ThreadDelay, ThreadYield, ThreadSuspend, ThreadResume, ThreadAbort, ThreadCreate, EnterIrq, ExitIrq, TimerFires,
      SliceTimeout, Return, Effective;
    hide Satisfied;
    OneKind(s, op);
    NoFree(s, op);
    match op {
      case OpEventRecv(x, mask, every, timeout) => EventRecvBits(s, x, mask, every, timeout);
      case OpEventSend(x, bits) =>
        EventSendKeeps(s, x, bits);
        EventSendLess(s, x, bits);
      case _ =>
    }
  }

  lemma EventRecvBits(s: State, id: nat, mask: set<nat>, every: bool, timeout: Timeout)
    ensures var ((s', r), bits) := (EventRecv(s, id, mask, every, timeout), EventOf(s, id));
      var met := if every then mask <= bits else exists b :: b in mask && b in bits;
      && r == (if met then Done(EOK) else if timeout.NoWait? then Done(EBUSY) else Blocked)
      && EventOf(s', id) == (if r == Done(EOK) then bits - mask else bits)
      && forall x | x != id :: EventOf(s', x) == EventOf(s, x)
  {
    hide Satisfied, Pend, Schedule, Put;
    SatisfiedMeans(EventOf(s, id), mask, every);
  }

  // The caller of a receive is left asking for what the call asked for.
  lemma EventRecvAsks(s: State, id: nat, mask: set<nat>, every: bool, timeout: Timeout)
    requires Sound(s) && MayCall(s, timeout)
    ensures var c := T(EventRecv(s, id, mask, every, timeout).0.k, s.k.cur); c.mask == mask && c.every == every
  {
    hide Whole, ObjectsGood, MutexesGood, Wait, Urgent, Satisfied, Put, SameSide, Pended;
    CallingRuns(s);
    MaskSound(s, mask, every);
    SatisfiedMeans(EventOf(s, id), mask, every);
    var s1 := s.(k := Put(s.k, s.k.cur, Cur(s).(mask := mask, every := every)));
    if !Satisfied(EventOf(s, id), mask, every) && !timeout.NoWait? {
      WaitSound(s1, RecvEvent(id, timeout));
      WaitAsks(s1, RecvEvent(id, timeout));
    }
  }

  lemma WaitAsks(s: State, call: Call)
    requires !call.DelayFor? && SameSide(Pend(s.k, call), Wait(s, call).k) && Pended(s.k, Pend(s.k, call), call)
    ensures var c := T(Wait(s, call).k, s.k.cur); c.mask == Cur(s).mask && c.every == Cur(s).every
  {
    hide Wait, Pend;
    assert Alike(T(Pend(s.k, call), s.k.cur), T(Wait(s, call).k, s.k.cur));
  }

  lemma {:induction false} WalkLess(s: State, id: nat, rest: seq<Tid>)
    ensures EventOf(EventWalk(s, id, rest), id) <= EventOf(s, id)
    decreases |rest|
  {
    hide Awaken, Satisfied;
    if rest != [] {
      var c := T(s.k, rest[0]);
      if Satisfied(EventOf(s, id), c.mask, c.every) {
        WalkLess(s.(events := s.events[id := EventOf(s, id) - c.mask], k := Awaken(s.k, rest[0], c.error)), id, rest[1..]);
      } else {
        WalkLess(s, id, rest[1..]);
      }
    }
  }

  lemma EventSendLess(s: State, id: nat, bits: set<nat>)
    ensures EventOf(EventSend(s, id, bits), id) <= EventOf(s, id) + bits
    ensures Q(s.k, EventList(id)) == [] ==> EventOf(EventSend(s, id, bits), id) == EventOf(s, id) + bits
  {
    hide Schedule;
    WalkLess(s.(events := s.events[id := EventOf(s, id) + bits]), id, Q(s.k, EventList(id)));
  }

  // ----- Mutexes

  // What no lock or unlock of mutex id changes: the other mutexes, and what threads other than t hold.
  ghost predicate OtherLocks(s: State, s': State, id: nat, t: Tid) {
    && (forall m {:trigger MutexOf(s', m)} | m != id :: MutexOf(s', m) == MutexOf(s, m))
    && (forall x {:trigger Taken(s', x)} | x != t :: Taken(s', x) == Taken(s, x))
  }

  // A lock takes a free mutex. It lends the caller's priority, and records it in the mutex, exactly if the owner is less
  // urgent; no other priority changes.
  lemma LockStep(s: State, id: nat, timeout: Timeout)
    requires Sound(s) && MayCall(s, timeout) && Cur(s).pc == Outside
    ensures var ((s', r), m, t) := (MutexLock(s, id, timeout), MutexOf(s, id), s.k.cur);
      && OtherLocks(s, s', id, t)
      && match m.owner
         case None =>
           && r == Done(EOK) && MutexOf(s', id) == Mutex(Thread(t), m.prio) && Taken(s', t) == [id] + Taken(s, t)
           && forall x :: T(s'.k, x).prio == T(s.k, x).prio
         case Thread(o) =>
           var lends := Cur(s).prio < T(s.k, o).prio;
           && r == (if o == t then Done(EDEADLK) else if timeout.NoWait? then Done(EBUSY) else Blocked)
           && MutexOf(s', id) == Mutex(Thread(o), if lends then Cur(s).prio else m.prio) && Taken(s', t) == Taken(s, t)
           && forall x :: T(s'.k, x).prio == if x == o && lends then Cur(s).prio else T(s.k, x).prio
  {
    hide Whole, ObjectsGood, MutexesGood, Boost, Wait, Urgent, Pended, SameSide;
    CallingRuns(s);
    match MutexOf(s, id).owner {
      case None =>
      case Thread(o) =>
        if o != s.k.cur {
          var s1 := Boost(s, id, o);
          BoostSound(s, id, o);
          BoostStep(s, id, o);
          BoostKeeps(s, id, o);
          if !timeout.NoWait? {
            WaitSound(s1, LockMutex(id, timeout));
            WaitOnly(s1, LockMutex(id, timeout));
            WaitPrios(s1, LockMutex(id, timeout));
            assert forall m :: MutexOf(Wait(s1, LockMutex(id, timeout)), m) == MutexOf(s1, m);
          }
        }
    }
  }

  lemma BoostStep(s: State, id: nat, o: Tid)
    requires Repriced(s.k, Boost(s, id, o).k, o) && MutexOf(s, id).owner == Thread(o)
    ensures var (s', lends) := (Boost(s, id, o), Cur(s).prio < T(s.k, o).prio);
      && MutexOf(s', id) == Mutex(Thread(o), if lends then Cur(s).prio else MutexOf(s, id).prio) && s'.taken == s.taken
      && (forall m {:trigger MutexOf(s', m)} | m != id :: MutexOf(s', m) == MutexOf(s, m))
      && forall x :: T(s'.k, x).prio == if x == o && lends then Cur(s).prio else T(s.k, x).prio
  {
    hide ChangePrio;
    BoostedPrio(s.k, o, Cur(s).prio);
    forall x | x != o ensures T(Boost(s, id, o).k, x) == T(s.k, x) { }
  }

  lemma WaitPrios(s: State, call: Call)
    requires !call.DelayFor? && SameSide(Pend(s.k, call), Wait(s, call).k) && Pended(s.k, Pend(s.k, call), call)
    ensures forall x :: T(Wait(s, call).k, x).prio == T(s.k, x).prio
  {
    hide Wait, Pend;
    var k, k' := Pend(s.k, call), Wait(s, call).k;
    forall x ensures T(k', x).prio == T(s.k, x).prio { assert Alike(T(k, x), T(k', x)) && (x != s.k.cur ==> T(k, x) == T(s.k, x)); }
  }

  // An unlock is the owner's alone. It frees the mutex, or makes its first waiter the owner with the priority recorded kept;
  // only the caller's own priority changes.
  lemma UnlockStep(s: State, id: nat)
    requires Sound(s) && Cur(s).pc == Outside && Cur(s).stat == Running
    ensures var ((s', r), m, t, q) := (MutexUnlock(s, id), MutexOf(s, id), s.k.cur, Q(s.k, MutexList(id)));
      if m.owner != Thread(t) then r == Done(EPERM) && s' == s
      else
        && r == Done(EOK) && (forall x {:trigger MutexOf(s', x)} | x != id :: MutexOf(s', x) == MutexOf(s, x))
        && MutexOf(s', id) == (if q == [] then Mutex(None, PRIOS) else Mutex(Thread(q[0]), m.prio))
        && (forall h :: h in Taken(s', t) <==> h in Taken(s, t) && h != id)
        && (forall x {:trigger Taken(s', x)} | x != t :: Taken(s', x) == if q != [] && x == q[0] then [id] + Taken(s, x) else Taken(s, x))
        && forall x | x != t :: T(s'.k, x).prio == T(s.k, x).prio
  {
    hide Whole, ObjectsGood, MutexesGood, Released, GiveUp, Schedule, Awaken;
    CallingRuns(s);
    if MutexOf(s, id).owner == Thread(s.k.cur) {
      var s1, l := GiveUp(s, id), MutexList(id);
      GiveUpReleased(s, id);
      GiveUpObjects(s, id);
      LosesOne(s, id);
      NotWaiting(s.k, s.k.cur, l);
      if Q(s1.k, l) != [] {
        WakePrios(s1.k, l);
        assert forall x | x != s.k.cur :: T(s1.k, x) == T(s.k, x);
      }
    }
  }

  lemma LosesOne(s: State, id: nat)
    requires MutexesGood(s) && MutexOf(s, id).owner == Thread(s.k.cur)
    ensures forall h :: h in Minus(Taken(s, s.k.cur), id) <==> h in Taken(s, s.k.cur) && h != id
  {
    assert TakenGood(s, s.k.cur) && MutexGood(s, id);
    MinusMembers(Taken(s, s.k.cur), id);
  }

  lemma WakePrios(k: Core, l: ListId)
    requires Whole(k) && Q(k, l) != [] && !l.ReadyList?
    ensures var k' := Schedule(Awaken(k, Q(k, l)[0], EOK)); forall x :: T(k', x).prio == T(k, x).prio
  {
    hide Whole, Awaken, Schedule;
    var h := Q(k, l)[0];
    OnWait(k, h, l);
    AwakenOk(k, h, EOK);
    var k1 := Awaken(k, h, EOK);
    ScheduleOk(k1);
    forall x ensures T(Schedule(k1), x).prio == T(k, x).prio { assert Alike(T(k1, x), T(Schedule(k1), x)) && (x != h ==> T(k1, x) == T(k, x)); }
  }

  lemma GiveUpObjects(s: State, id: nat)
    ensures var s' := GiveUp(s, id); s'.mutexes == s.mutexes && s'.taken == s.taken[s.k.cur := Minus(Taken(s, s.k.cur), id)]
  {
    hide LeastPrio;
  }

  // ----- Threads, and refusals

  // What the calls on threads answer; a refusal, and a call on a dead thread, changes nothing at all.
  lemma ThreadAnswers(s: State, t: Tid, timeout: Timeout, prio: nat, essential: bool)
    ensures var ((s', r), c) := (Step(s, OpJoin(t, timeout)), T(s.k, t));
      && r == (if t == s.k.cur then Done(EDEADLK) else if c.stat == Dead then Done(EOK) else if timeout.NoWait? then Done(EBUSY) else Blocked)
      && (r.Done? ==> s' == s)
    ensures var ((s', r), c) := (Step(s, OpSuspend(t)), T(s.k, t));
      && r == Done(if Taken(s, t) != [] then EPERM else if c.stat == Suspend || c.stat == Dead then ERROR else EOK) && (r != Done(EOK) ==> s' == s)
    ensures var ((s', r), c) := (Step(s, OpResume(t)), T(s.k, t));
      r == Done(if c.stat == Suspend then EOK else ERROR) && (r != Done(EOK) ==> s' == s)
    ensures var ((s', r), c) := (Step(s, OpAbort(t)), T(s.k, t));
      r == Done(if c.stat != Dead && c.essential then EPERM else EOK) && (r != Done(EOK) || c.stat == Dead ==> s' == s)
    ensures var (s', r) := Step(s, OpCreate(t, prio, essential));
      r == Done(if prio >= PRIOS then EINVAL else EOK) && (r != Done(EOK) ==> s' == s)
  {
    hide Schedule, Pend, Retire, AddTail, Put, Create, ThreadHalt;
  }

  // A call that is refused, or times out, leaves every object alone, but for the priority a lock attempt lends and records.
  lemma RefusedKeeps(s: State, op: Op)
    requires Step(s, op).1.Done? && Step(s, op).1 != Done(EOK)
    ensures var s' := Step(s, op).0;
      && s'.sems == s.sems && s'.queues == s.queues && s'.pools == s.pools && s'.events == s.events && s'.taken == s.taken
      && (s'.mutexes == s.mutexes || op.OpLock?) && forall m :: MutexOf(s', m).owner == MutexOf(s, m).owner
  {
    hide ThreadJoin, ThreadDelay, ThreadYield, ThreadSuspend, ThreadResume, ThreadAbort, ThreadCreate, EnterIrq, ExitIrq, TimerFires,
      SliceTimeout, Return, Effective, QueueSend, QueueRecv, PoolAlloc, SemRelease, PoolFree, EventSend, MutexLock, MutexUnlock, SemTake, EventRecv;
    LooksAgain(s, op);
    OneKind(s, op);
    NoFree(s, op);
    match Effective(s, op) {
      case OpSend(id, msg, timeout) => SendOnly(s, id, msg, timeout);
      case OpRecv(id, timeout) => RecvOnly(s, id, timeout);
      case OpAlloc(id, timeout) => AllocOnly(s, id, timeout);
      case OpSemTake(id, timeout) => RefusedTake(s, id, timeout);
      case OpEventRecv(id, mask, every, timeout) => RefusedRecv(s, id, mask, every, timeout);
      case OpLock(id, timeout) => RefusedLock(s, id, timeout);
      case OpUnlock(id) => RefusedUnlock(s, id);
      case _ =>
    }
  }

  lemma RefusedTake(s: State, id: nat, timeout: Timeout)
    requires SemTake(s, id, timeout).1.Done? && SemTake(s, id, timeout).1 != Done(EOK)
    ensures SemTake(s, id, timeout).0 == s
  {
  }

  lemma RefusedRecv(s: State, id: nat, mask: set<nat>, every: bool, timeout: Timeout)
    requires EventRecv(s, id, mask, every, timeout).1.Done? && EventRecv(s, id, mask, every, timeout).1 != Done(EOK)
    ensures EventRecv(s, id, mask, every, timeout).0.events == s.events
  {
    hide Satisfied, Put, Wait;
  }

  lemma RefusedLock(s: State, id: nat, timeout: Timeout)
    requires MutexLock(s, id, timeout).1.Done? && MutexLock(s, id, timeout).1 != Done(EOK)
    ensures var s' := MutexLock(s, id, timeout).0; s'.taken == s.taken && forall m :: MutexOf(s', m).owner == MutexOf(s, m).owner
  {
    hide ChangePrio, Wait;
  }

  lemma RefusedUnlock(s: State, id: nat)
    requires MutexUnlock(s, id).1 != Done(EOK)
    ensures MutexUnlock(s, id).0 == s
  {
    hide GiveUp, Schedule, Awaken;
  }
}
