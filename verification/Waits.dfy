// How every wait ends: by whom, with what, and what the call then returns.
module Waits {
  import opened BitOps
  import opened KernelCore
  import opened Ipc
  import opened EventOrder
  import opened Laws
  import opened Runs
  import opened Effects

  // What a step means for a thread. It may begin a wait; be given what it waits for; have its wait ended by its timer or cut
  // short by a suspension; be stopped, resumed or ended otherwise; come back from its call; or none of that.
  datatype Turn = Still | Begins(call: Call) | Given | TimedOut | Cut | Stopped | Resumed | Ended | Back

  // The call in which the step's caller has to wait, if it has to.
  function Awaits(s: State, op: Op): Pc {
    match Effective(s, op)
    case OpSemTake(id, timeout) => if SemOf(s, id).val <= 0 && !timeout.NoWait? then Inside(TakeSem(id, timeout)) else Outside
    case OpLock(id, timeout) =>
      if MutexOf(s, id).owner != None && MutexOf(s, id).owner != Thread(s.k.cur) && !timeout.NoWait? then Inside(LockMutex(id, timeout)) else Outside
    case OpSend(id, msg, timeout) =>
      if |QueueOf(s, id).msgs| == QueueOf(s, id).max && !timeout.NoWait? then Inside(SendQueue(id, msg, timeout)) else Outside
    case OpRecv(id, timeout) => if QueueOf(s, id).msgs == [] && !timeout.NoWait? then Inside(RecvQueue(id, timeout)) else Outside
    case OpAlloc(id, timeout) => if PoolOf(s, id).free == 0 && !timeout.NoWait? then Inside(AllocPool(id, timeout)) else Outside
    case OpEventRecv(id, mask, every, timeout) =>
      if !Met(EventOf(s, id), Want(mask, every)) && !timeout.NoWait? then Inside(RecvEvent(id, timeout)) else Outside
    case OpJoin(t, timeout) => if t != s.k.cur && T(s.k, t).stat != Dead && !timeout.NoWait? then Inside(JoinThread(t, timeout)) else Outside
    case OpDelay(n) => Inside(DelayFor(n))
    case _ => Outside
  }

  ghost predicate First(s: State, l: ListId, x: Tid) { Q(s.k, l) != [] && Q(s.k, l)[0] == x }

  // The step has for x what x waits for: a unit, the mutex, room, a message, a block, its bits, the end of a thread.
  ghost predicate Provides(s: State, op: Op, x: Tid)
    requires T(s.k, x).pc.Inside?
  {
    var e := Effective(s, op);
    match T(s.k, x).pc.call
    case TakeSem(id, _) => op == OpSemRelease(id) && First(s, SemList(id), x)
    case LockMutex(id, _) => op == OpUnlock(id) && MutexOf(s, id).owner == Thread(s.k.cur) && First(s, MutexList(id), x)
    case SendQueue(id, _, _) => e.OpRecv? && e.id == id && QueueOf(s, id).msgs != [] && First(s, SendList(id), x)
    case RecvQueue(id, _) => e.OpSend? && e.id == id && |QueueOf(s, id).msgs| != QueueOf(s, id).max && First(s, RecvList(id), x)
    case AllocPool(id, _) => op == OpFree(id) && First(s, PoolList(id), x)
    case RecvEvent(id, _) => op.OpEventSend? && op.id == id && BitsFor(s, id, op.bits, x)
    case JoinThread(t, _) => op == OpAbort(t) && !T(s.k, t).essential
    case DelayFor(_) => false
  }

  // x waits for event id, and with these bits set too, those left at its turn will do.
  ghost predicate BitsFor(s: State, id: nat, bits: set<nat>, x: Tid) {
    var q := Q(s.k, EventList(id));
    exists i {:trigger q[i]} ::
      0 <= i < |q| && q[i] == x && Met(Left(EventOf(s, id) + bits, Wants(s.k, q[..i])), Want(T(s.k, x).mask, T(s.k, x).every))
  }

  ghost function TurnOf(s: State, op: Op, x: Tid): Turn {
    var c := T(s.k, x);
    if op == OpAbort(x) && !c.essential && c.stat != Dead then Ended
    else if op == OpSuspend(x) && Taken(s, x) == [] && (Runnable(c) || c.stat == Block) then (if c.stat == Block then Cut else Stopped)
    else if op == OpResume(x) && c.stat == Suspend then Resumed
    else if op == OpTimer(x) then TimedOut
    else if c.stat == Block then (if c.pc.Inside? && Provides(s, op, x) then Given else Still)
    else if x == s.k.cur && Awaits(s, op).Inside? then Begins(Awaits(s, op).call)
    else if x == s.k.cur && op.OpReturn? then Back
    else Still
  }

  // Ready or running, waiting, suspended, dead.
  datatype Life = Able | Asleep | Halted | Over

  function LifeOf(c: Tcb): Life {
    match c.stat
    case Block => Asleep
    case Suspend => Halted
    case Dead => Over
    case _ => Able
  }

  // What of c is reported to its call when it comes back.
  ghost predicate SameReport(c: Tcb, d: Tcb) { d.pc == c.pc && d.error == c.error && d.cut == c.cut }

  // A waiting thread keeps what it asked for and its timer.
  ghost predicate SameWish(c: Tcb, d: Tcb) { c.stat == Block ==> d.mask == c.mask && d.every == c.every && d.timer == c.timer }

  // A control block before and after the step.
  ghost predicate Took(c: Tcb, d: Tcb, turn: Turn) {
    match turn
    case Still => LifeOf(d) == LifeOf(c) && SameReport(c, d) && SameWish(c, d)
    case Begins(call) => LifeOf(d) == Asleep && d.pc == Inside(call) && (call.DelayFor? || (d.error == EOK && !d.cut))
    case Given => LifeOf(d) == Able && d.pc == c.pc && d.error == EOK && !d.cut
    case TimedOut => LifeOf(d) == Able && d.pc == c.pc && d.error == (if c.timer == PendTimer then ETIMEOUT else c.error) && d.cut == c.cut
    case Cut => LifeOf(d) == Halted && d.pc == c.pc && d.error == c.error && d.cut
    case Stopped => LifeOf(d) == Halted && SameReport(c, d)
    case Resumed => LifeOf(d) == Able && SameReport(c, d)
    case Ended => LifeOf(d) == Over
    case Back => LifeOf(d) == LifeOf(c) && d.pc == Outside && d.error == c.error && d.cut == c.cut
  }

  // ----- The changes steps are made of

  lemma TookSide(c: Tcb, d: Tcb, d': Tcb, turn: Turn)
    requires Took(c, d, turn) && Alike(d, d')
    ensures Took(c, d', turn)
  {
  }

  lemma TookLater(c: Tcb, d: Tcb, d': Tcb, turn: Turn)
    requires Took(c, d, Still) && Took(d, d', turn) && turn != TimedOut
    ensures Took(c, d', turn)
  {
  }

  // The scheduler runs behind a change.
  lemma TookScheduled(k: Core, k1: Core, x: Tid, turn: Turn)
    requires Whole(k1) && Took(T(k, x), T(k1, x), turn)
    ensures Took(T(k, x), T(Schedule(k1), x), turn)
  {
    hide Whole, Schedule, Took;
    ScheduleOk(k1);
    assert Alike(T(k1, x), T(Schedule(k1), x));
    TookSide(T(k, x), T(k1, x), T(Schedule(k1), x), turn);
  }

  // The first of a list is woken.
  lemma TookWoken(k: Core, l: ListId, x: Tid)
    requires Whole(k) && Q(k, l) != [] && !l.ReadyList?
    ensures Took(T(k, x), T(Schedule(Awaken(k, Q(k, l)[0], EOK)), x), if x == Q(k, l)[0] then Given else Still)
  {
    hide Linked, BitsOk, Schedule, Awaken;
    var h := Q(k, l)[0];
    OnWait(k, h, l);
    AwakenOk(k, h, EOK);
    TookScheduled(k, Awaken(k, h, EOK), x, if x == h then Given else Still);
  }

  lemma TookWakeOne(s: State, l: ListId, x: Tid)
    requires Whole(s.k) && !l.ReadyList?
    ensures Took(T(s.k, x), T(WakeOne(s, l).k, x), if First(s, l, x) then Given else Still)
  {
    hide Whole, Schedule, Awaken, Took;
    if Q(s.k, l) != [] { TookWoken(s.k, l, x); } else { TookSame(T(s.k, x)); }
  }

  lemma TookSame(c: Tcb)
    ensures Took(c, c, Still)
  {
  }

  // The current thread begins to wait.
  lemma TookWait(s: State, call: Call, x: Tid)
    requires Good(s) && MayWait(s, call)
    ensures Took(T(s.k, x), T(Wait(s, call).k, x), if x == s.k.cur then Begins(call) else Still)
  {
    hide Linked, BitsOk, ThreadOk, ObjectsGood, MutexesGood, Pend, Schedule;
    PendOk(s.k, call);
    var k := Pend(s.k, call);
    if x != s.k.cur { assert T(k, x) == T(s.k, x); }
    TookScheduled(s.k, k, x, if x == s.k.cur then Begins(call) else Still);
  }

  // The current thread comes back from its call.
  lemma TookBack(s: State, x: Tid)
    requires Cur(s).stat != Block
    ensures Took(T(s.k, x), T(Leave(s).k, x), if x == s.k.cur && s.k.nest == 0 then Back else Still)
  {
  }

  // ----- Steps

  // What puts a thread first on a wait list.
  lemma FirstWaits(s: State, l: ListId, x: Tid)
    requires Sound(s) && !l.ReadyList? && First(s, l, x)
    ensures x in s.k.tcb && x != s.k.cur && T(s.k, x).stat == Block
    ensures T(s.k, x).pc.Inside? && !T(s.k, x).pc.call.DelayFor? && WaitList(T(s.k, x).pc.call) == l
  {
    hide Whole, ObjectsGood, MutexesGood;
    OnWait(s.k, x, l);
  }

  lemma Blocks(s: State, x: Tid)
    requires Sound(s) && T(s.k, x).stat == Block
    ensures x != s.k.cur && T(s.k, x).pc.Inside?
  {
    hide Linked, BitsOk, ObjectsGood, MutexesGood;
  }

  lemma TakeTurns(s: State, id: nat, timeout: Timeout, x: Tid)
    requires Sound(s) && MayCall(s, timeout)
    ensures Took(T(s.k, x), T(SemTake(s, id, timeout).0.k, x), TurnOf(s, OpSemTake(id, timeout), x))
  {
    hide Whole, ObjectsGood, MutexesGood, Wait, Took;
    CallingRuns(s);
    TookSame(T(s.k, x));
    if SemOf(s, id).val <= 0 && !timeout.NoWait? { TookWait(s, TakeSem(id, timeout), x); }
    if T(s.k, x).stat == Block { Blocks(s, x); }
  }

  lemma ReleaseTurns(s: State, id: nat, x: Tid)
    requires Sound(s)
    ensures Took(T(s.k, x), T(SemRelease(s, id).k, x), TurnOf(s, OpSemRelease(id), x))
  {
    hide Whole, ObjectsGood, MutexesGood, Awaken, Schedule, Took;
    TookSame(T(s.k, x));
    if Q(s.k, SemList(id)) != [] {
      TookWoken(s.k, SemList(id), x);
      FirstWaits(s, SemList(id), Q(s.k, SemList(id))[0]);
    }
  }

  lemma BoostTurns(s: State, id: nat, o: Tid, x: Tid)
    requires Repriced(s.k, Boost(s, id, o).k, o)
    ensures Took(T(s.k, x), T(Boost(s, id, o).k, x), Still)
  {
    hide Boost;
    var k := Boost(s, id, o).k;
    assert x != o ==> T(k, x) == T(s.k, x);
  }

  lemma LockTurns(s: State, id: nat, timeout: Timeout, x: Tid)
    requires Sound(s) && MayCall(s, timeout) && Cur(s).pc == Outside
    ensures Took(T(s.k, x), T(MutexLock(s, id, timeout).0.k, x), TurnOf(s, OpLock(id, timeout), x))
  {
    hide Whole, ObjectsGood, MutexesGood, MutexLock, Took;
    CallingRuns(s);
    if T(s.k, x).stat == Block { Blocks(s, x); }
    LockTook(s, id, timeout, x);
  }

  lemma LockTook(s: State, id: nat, timeout: Timeout, x: Tid)
    requires Sound(s) && MayCall(s, timeout) && Cur(s).pc == Outside
    ensures var o := MutexOf(s, id).owner;
      Took(T(s.k, x), T(MutexLock(s, id, timeout).0.k, x),
        if x == s.k.cur && o != None && o != Thread(x) && !timeout.NoWait? then Begins(LockMutex(id, timeout)) else Still)
  {
    hide Whole, ObjectsGood, MutexesGood, Wait, Boost, Urgent, Took;
    CallingRuns(s);
    TookSame(T(s.k, x));
    match MutexOf(s, id).owner {
      case None =>
      case Thread(o) =>
        if o != s.k.cur {
          BoostSound(s, id, o);
          BoostTurns(s, id, o, x);
          BoostKeeps(s, id, o);
          if !timeout.NoWait? {
            var s1 := Boost(s, id, o);
            TookWait(s1, LockMutex(id, timeout), x);
            var turn := if x == s.k.cur then Begins(LockMutex(id, timeout)) else Still;
            TookLater(T(s.k, x), T(s1.k, x), T(Wait(s1, LockMutex(id, timeout)).k, x), turn);
          }
        }
    }
  }

  lemma UnlockTurns(s: State, id: nat, x: Tid)
    requires Sound(s) && Cur(s).pc == Outside && Cur(s).stat == Running
    ensures Took(T(s.k, x), T(MutexUnlock(s, id).0.k, x), TurnOf(s, OpUnlock(id), x))
  {
    hide Whole, ObjectsGood, MutexesGood, MutexUnlock, Took;
    UnlockTook(s, id, x);
    if First(s, MutexList(id), x) { FirstWaits(s, MutexList(id), x); }
    if T(s.k, x).stat == Block { Blocks(s, x); }
  }

  lemma UnlockTook(s: State, id: nat, x: Tid)
    requires Sound(s) && Cur(s).pc == Outside && Cur(s).stat == Running
    ensures var owns := MutexOf(s, id).owner == Thread(s.k.cur);
      Took(T(s.k, x), T(MutexUnlock(s, id).0.k, x), if owns && First(s, MutexList(id), x) then Given else Still)
  {
    hide Whole, ObjectsGood, MutexesGood, Released, Awaken, Schedule, GiveUp, Took;
    CallingRuns(s);
    TookSame(T(s.k, x));
    if MutexOf(s, id).owner == Thread(s.k.cur) {
      GiveUpReleased(s, id);
      GiveUpTurns(s, id, x);
      var s1, l := GiveUp(s, id), MutexList(id);
      if Q(s1.k, l) != [] {
        TookWoken(s1.k, l, x);
        TookLater(T(s.k, x), T(s1.k, x), T(MutexUnlock(s, id).0.k, x), if x == Q(s.k, l)[0] then Given else Still);
      }
    }
  }

  lemma GiveUpTurns(s: State, id: nat, x: Tid)
    requires Cur(s).stat == Running
    ensures Took(T(s.k, x), T(GiveUp(s, id).k, x), Still)
  {
    hide LeastPrio;
  }

  // A thread leaves its call, if it is in one, and the first of a list, if any, is woken.
  lemma StoredTurns(s: State, s1: State, l: ListId, x: Tid)
    requires Sound(s) && (s.k.nest == 0 ==> s.k.cur != s.k.idle) && s1.k == Leave(s).k && !l.ReadyList?
    ensures Took(T(s.k, x), T(WakeOne(s1, l).k, x), if x == s.k.cur && s.k.nest == 0 then Back else if First(s, l, x) then Given else Still)
  {
    hide Whole, ObjectsGood, MutexesGood, WakeOne, Leave, Took, Urgent;
    LeaveSound(s);
    TookBack(s, x);
    TookWakeOne(s1, l, x);
    assert Q(s1.k, l) == Q(s.k, l);
    if First(s, l, x) { FirstWaits(s, l, x); }
    if x == s.k.cur && s.k.nest == 0 {
      BackSame(T(s.k, x), T(s1.k, x), T(WakeOne(s1, l).k, x));
    } else {
      TookLater(T(s.k, x), T(s1.k, x), T(WakeOne(s1, l).k, x), if First(s, l, x) then Given else Still);
    }
  }

  lemma BackSame(c: Tcb, d: Tcb, d': Tcb)
    requires Took(c, d, Back) && Took(d, d', Still)
    ensures Took(c, d', Back)
  {
  }

  // Coming back from no call.
  lemma BackOutside(c: Tcb, d: Tcb)
    requires Took(c, d, Back) && c.pc == Outside && c.stat != Block
    ensures Took(c, d, Still)
  {
  }

  // The turn of the caller of a queue or pool call, begun or started over.
  ghost function CallerTurn(s: State, call: Call, waits: bool): Turn {
    if waits then Begins(call) else if s.k.nest == 0 then Back else Still
  }

  lemma SendTurns(s: State, id: nat, msg: nat, timeout: Timeout, x: Tid)
    requires Sound(s) && MayCall(s, timeout)
    ensures var full := |QueueOf(s, id).msgs| == QueueOf(s, id).max;
      Took(T(s.k, x), T(QueueSend(s, id, msg, timeout).0.k, x),
        if x == s.k.cur then CallerTurn(s, SendQueue(id, msg, timeout), full && !timeout.NoWait?)
        else if !full && First(s, RecvList(id), x) then Given else Still)
  {
    hide Whole, ObjectsGood, MutexesGood, Wait, WakeOne, Leave, Took;
    CallingRuns(s);
    var q := QueueOf(s, id);
    TookBack(s, x);
    if |q.msgs| == q.max {
      if !timeout.NoWait? { TookWait(s, SendQueue(id, msg, timeout), x); }
    } else {
      StoredTurns(s, Leave(s).(queues := s.queues[id := q.(msgs := q.msgs + [msg], sent := q.sent + [msg])]), RecvList(id), x);
      if First(s, RecvList(id), x) { FirstWaits(s, RecvList(id), x); }
    }
  }

  lemma RecvTurns(s: State, id: nat, timeout: Timeout, x: Tid)
    requires Sound(s) && MayCall(s, timeout)
    ensures var none := QueueOf(s, id).msgs == [];
      Took(T(s.k, x), T(QueueRecv(s, id, timeout).0.k, x),
        if x == s.k.cur then CallerTurn(s, RecvQueue(id, timeout), none && !timeout.NoWait?)
        else if !none && First(s, SendList(id), x) then Given else Still)
  {
    hide Whole, ObjectsGood, MutexesGood, Wait, WakeOne, Leave, Took;
    CallingRuns(s);
    var q := QueueOf(s, id);
    TookBack(s, x);
    if q.msgs == [] {
      if !timeout.NoWait? { TookWait(s, RecvQueue(id, timeout), x); }
    } else {
      StoredTurns(s, Leave(s).(queues := s.queues[id := q.(msgs := q.msgs[1..], got := q.got + [q.msgs[0]])]), SendList(id), x);
      if First(s, SendList(id), x) { FirstWaits(s, SendList(id), x); }
    }
  }

  lemma AllocTurns(s: State, id: nat, timeout: Timeout, x: Tid)
    requires Sound(s) && MayCall(s, timeout)
    ensures var none := PoolOf(s, id).free == 0;
      Took(T(s.k, x), T(PoolAlloc(s, id, timeout).0.k, x),
        if x == s.k.cur then CallerTurn(s, AllocPool(id, timeout), none && !timeout.NoWait?) else Still)
  {
    hide Whole, ObjectsGood, MutexesGood, Wait, Leave, Took;
    CallingRuns(s);
    TookBack(s, x);
    if PoolOf(s, id).free == 0 && !timeout.NoWait? { TookWait(s, AllocPool(id, timeout), x); }
  }

  // The turn of a thread in one of the three calls that are started over, at their beginning or behind a wait.
  ghost function LoopTurn(s: State, e: Op, x: Tid): Turn {
    match e
    case OpSend(id, msg, timeout) =>
      var full := |QueueOf(s, id).msgs| == QueueOf(s, id).max;
      if x == s.k.cur then CallerTurn(s, SendQueue(id, msg, timeout), full && !timeout.NoWait?)
      else if !full && First(s, RecvList(id), x) then Given else Still
    case OpRecv(id, timeout) =>
      var none := QueueOf(s, id).msgs == [];
      if x == s.k.cur then CallerTurn(s, RecvQueue(id, timeout), none && !timeout.NoWait?)
      else if !none && First(s, SendList(id), x) then Given else Still
    case OpAlloc(id, timeout) =>
      if x == s.k.cur then CallerTurn(s, AllocPool(id, timeout), PoolOf(s, id).free == 0 && !timeout.NoWait?) else Still
    case _ => Still
  }

  ghost predicate Loops(e: Op) { e.OpSend? || e.OpRecv? || e.OpAlloc? }

  lemma LoopTook(s: State, op: Op, x: Tid)
    requires Sound(s) && Legal(s, op) && Loops(Effective(s, op))
    ensures Took(T(s.k, x), T(Step(s, op).0.k, x), LoopTurn(s, Effective(s, op), x))
  {
    hide Whole, ObjectsGood, MutexesGood, QueueSend, QueueRecv, PoolAlloc, Took, Effective, Legal;
    LooksAgain(s, op);
    MayLookAgain(s, op);
    match Effective(s, op) {
      case OpSend(id, msg, timeout) => SendTurns(s, id, msg, timeout, x);
      case OpRecv(id, timeout) => RecvTurns(s, id, timeout, x);
      case OpAlloc(id, timeout) => AllocTurns(s, id, timeout, x);
    }
  }

  // It is the turn there is, but that a caller just outside its call comes back from none.
  lemma LoopTurnIs(s: State, op: Op, x: Tid)
    requires Sound(s) && Legal(s, op) && Loops(Effective(s, op))
    ensures var (turn, loop) := (TurnOf(s, op, x), LoopTurn(s, Effective(s, op), x));
      turn == loop || (T(s.k, x).pc == Outside && T(s.k, x).stat != Block && loop == Back && turn == Still)
  {
    hide Whole, ObjectsGood, MutexesGood;
    CallingRuns(s);
    NoFree(s, op);
    match Effective(s, op) {
      case OpSend(id, msg, timeout) =>
        if First(s, RecvList(id), x) { FirstWaits(s, RecvList(id), x); }
      case OpRecv(id, timeout) =>
        if First(s, SendList(id), x) { FirstWaits(s, SendList(id), x); }
      case OpAlloc(id, timeout) =>
    }
  }

  lemma LoopTurns(s: State, op: Op, x: Tid)
    requires Sound(s) && Legal(s, op) && Loops(Effective(s, op))
    ensures Took(T(s.k, x), T(Step(s, op).0.k, x), TurnOf(s, op, x))
  {
    hide Sound, Legal, Step, Took, TurnOf, LoopTurn, Effective;
    LoopTook(s, op, x);
    LoopTurnIs(s, op, x);
    if TurnOf(s, op, x) != LoopTurn(s, Effective(s, op), x) { BackOutside(T(s.k, x), T(Step(s, op).0.k, x)); }
  }

  // A thread waits only in a call that is willing to, and not as the idle thread.
  lemma MayLookAgain(s: State, op: Op)
    requires Sound(s) && Legal(s, op)
    ensures var e := Effective(s, op);
      (e.OpSend? ==> MayCall(s, e.timeout)) && (e.OpRecv? ==> MayCall(s, e.timeout)) && (e.OpAlloc? ==> MayCall(s, e.timeout))
  {
    hide Linked, BitsOk, ObjectsGood, MutexesGood;
  }

  lemma FreeTurns(s: State, id: nat, x: Tid)
    requires Sound(s)
    ensures Took(T(s.k, x), T(PoolFree(s, id).k, x), TurnOf(s, OpFree(id), x))
  {
    hide Whole, ObjectsGood, MutexesGood, WakeOne, Took;
    var p := PoolOf(s, id);
    TookWakeOne(s.(pools := s.pools[id := p.(free := p.free + 1)]), PoolList(id), x);
    if First(s, PoolList(id), x) { FirstWaits(s, PoolList(id), x); }
  }

  // A waiter of the event is given its bits exactly if the walk serves it.
  lemma BitsForServed(s: State, id: nat, bits: set<nat>, i: nat)
    requires Sound(s) && i < |Q(s.k, EventList(id))|
    ensures var q := Q(s.k, EventList(id)); BitsFor(s, id, bits, q[i]) <==> Served(EventOf(s, id) + bits, Wants(s.k, q))[i]
  {
    hide Whole, ObjectsGood, MutexesGood, Met, Served;
    var q := Q(s.k, EventList(id));
    WaitersOnce(s.k, EventList(id));
    assert Wants(s.k, q[..i]) == Wants(s.k, q)[..i];
    ServedAt(EventOf(s, id) + bits, Wants(s.k, q), i);
    MetPlain(Left(EventOf(s, id) + bits, Wants(s.k, q)[..i]), Wants(s.k, q)[i]);
    assert BitsFor(s, id, bits, q[i]) ==> Met(Left(EventOf(s, id) + bits, Wants(s.k, q[..i])), Want(T(s.k, q[i]).mask, T(s.k, q[i]).every));
  }

  lemma MetPlain(bits: set<nat>, w: Want)
    ensures Met(bits, w) <==> if w.every then w.mask <= bits else exists b :: b in w.mask && b in bits
  {
  }

  lemma EventSendTook(s: State, id: nat, bits: set<nat>, x: Tid)
    requires Sound(s)
    ensures Took(T(s.k, x), T(EventSend(s, id, bits).k, x), if BitsFor(s, id, bits, x) then Given else Still)
  {
    hide Whole, ObjectsGood, MutexesGood, Walking, EventWalk, Schedule, Took, BitsFor;
    var s1, q := s.(events := s.events[id := EventOf(s, id) + bits]), Q(s.k, EventList(id));
    var k1, ws := EventWalk(s1, id, q).k, Wants(s.k, q);
    WalkStart(s, id, bits);
    WalkIsGreedy(s1, id, q);
    WalkGood(s1, id, q);
    assert Wants(s1.k, q) == ws;
    if x in q {
      var i :| 0 <= i < |q| && q[i] == x;
      BitsForServed(s, id, bits, i);
      OnWait(s.k, x, EventList(id));
      NotCut(s.k, x);
      assert T(k1, q[i]) == if Served(EventOf(s, id) + bits, ws)[i] then Woken(T(s.k, q[i])) else T(s.k, q[i]);
      TookServed(T(s.k, x));
    } else {
      NoBitsFor(s, id, bits, x);
      assert T(k1, x) == T(s.k, x);
    }
    TookSame(T(s.k, x));
    TookScheduled(s.k, k1, x, if BitsFor(s, id, bits, x) then Given else Still);
  }

  lemma NoBitsFor(s: State, id: nat, bits: set<nat>, x: Tid)
    requires x !in Q(s.k, EventList(id))
    ensures !BitsFor(s, id, bits, x)
  {
  }

  lemma TookServed(c: Tcb)
    requires c.error == EOK && !c.cut
    ensures Took(c, Woken(c), Given)
  {
  }

  lemma EventSendTurns(s: State, id: nat, bits: set<nat>, x: Tid)
    requires Sound(s)
    ensures Took(T(s.k, x), T(EventSend(s, id, bits).k, x), TurnOf(s, OpEventSend(id, bits), x))
  {
    hide Whole, ObjectsGood, MutexesGood, EventSend, Took, BitsFor;
    EventSendTook(s, id, bits, x);
    if BitsFor(s, id, bits, x) { BitsForWaiter(s, id, bits, x); }
    if T(s.k, x).stat == Block { Blocks(s, x); }
  }

  lemma BitsForWaiter(s: State, id: nat, bits: set<nat>, x: Tid)
    requires Sound(s) && BitsFor(s, id, bits, x)
    ensures T(s.k, x).stat == Block && T(s.k, x).pc.Inside? && T(s.k, x).pc.call.RecvEvent? && T(s.k, x).pc.call.id == id
  {
    hide Whole, ObjectsGood, MutexesGood, Met, Left;
    assert x in Q(s.k, EventList(id));
    OnWait(s.k, x, EventList(id));
  }

  lemma EventRecvTurns(s: State, id: nat, mask: set<nat>, every: bool, timeout: Timeout, x: Tid)
    requires Sound(s) && MayCall(s, timeout)
    ensures Took(T(s.k, x), T(EventRecv(s, id, mask, every, timeout).0.k, x), TurnOf(s, OpEventRecv(id, mask, every, timeout), x))
  {
    hide Whole, ObjectsGood, MutexesGood, EventRecv, Took, Met;
    CallingRuns(s);
    EventRecvTook(s, id, mask, every, timeout, x);
    if T(s.k, x).stat == Block { Blocks(s, x); }
  }

  lemma EventRecvTook(s: State, id: nat, mask: set<nat>, every: bool, timeout: Timeout, x: Tid)
    requires Sound(s) && MayCall(s, timeout)
    ensures Took(T(s.k, x), T(EventRecv(s, id, mask, every, timeout).0.k, x),
              if x == s.k.cur && !Met(EventOf(s, id), Want(mask, every)) && !timeout.NoWait? then Begins(RecvEvent(id, timeout)) else Still)
  {
    hide Whole, ObjectsGood, MutexesGood, Wait, Urgent, Took, Satisfied, Met, Put;
    CallingRuns(s);
    MaskSound(s, mask, every);
    MetMeans(EventOf(s, id), Want(mask, every));
    var s1 := s.(k := Put(s.k, s.k.cur, Cur(s).(mask := mask, every := every)));
    PutTook(s.k, s.k.cur, Cur(s1), x);
    if !Satisfied(EventOf(s, id), mask, every) && !timeout.NoWait? {
      TookWait(s1, RecvEvent(id, timeout), x);
      TookLater(T(s.k, x), T(s1.k, x), T(Wait(s1, RecvEvent(id, timeout)).k, x), if x == s.k.cur then Begins(RecvEvent(id, timeout)) else Still);
    }
  }


  lemma JoinTurns(s: State, t: Tid, timeout: Timeout, x: Tid)
    requires Sound(s) && MayCall(s, timeout)
    ensures Took(T(s.k, x), T(ThreadJoin(s, t, timeout).0.k, x), TurnOf(s, OpJoin(t, timeout), x))
  {
    hide Whole, ObjectsGood, MutexesGood, Wait, Took;
    CallingRuns(s);
    TookSame(T(s.k, x));
    if T(s.k, x).stat == Block { Blocks(s, x); }
    if t != s.k.cur && T(s.k, t).stat != Dead && !timeout.NoWait? { TookWait(s, JoinThread(t, timeout), x); }
  }

  lemma DelayTurns(s: State, n: nat, x: Tid)
    requires Sound(s) && Calling(s)
    ensures Took(T(s.k, x), T(ThreadDelay(s, n).k, x), TurnOf(s, OpDelay(n), x))
  {
    hide Linked, BitsOk, ThreadOk, ObjectsGood, MutexesGood, Schedule, DelayStart, Took;
    CallingRuns(s);
    DelayStartOk(s.k, n);
    DelayTook(s.k, n, x);
    if T(s.k, x).stat == Block { Blocks(s, x); }
    TookScheduled(s.k, DelayStart(s.k, n), x, if x == s.k.cur then Begins(DelayFor(n)) else Still);
  }

  lemma DelayTook(k: Core, n: nat, x: Tid)
    ensures Took(T(k, x), T(DelayStart(k, n), x), if x == k.cur then Begins(DelayFor(n)) else Still)
  {
  }

  lemma YieldTurns(s: State, x: Tid)
    requires Sound(s)
    ensures Took(T(s.k, x), T(ThreadYield(s).k, x), Still)
  {
    hide Linked, BitsOk, ThreadOk, ObjectsGood, MutexesGood, Schedule, Took, Put;
    CallingRuns(s);
    var c := Cur(s).(yielding := true);
    PutWhole(s.k, s.k.cur, c);
    PutTook(s.k, s.k.cur, c, x);
    TookScheduled(s.k, Put(s.k, s.k.cur, c), x, Still);
  }

  lemma PutTook(k: Core, t: Tid, c: Tcb, x: Tid)
    requires c.stat == T(k, t).stat && SameReport(c, T(k, t)) && c.stat != Block
    ensures Took(T(k, x), T(Put(k, t, c), x), Still)
  {
  }

  lemma YieldSliceTurns(s: State, op: Op, x: Tid)
    requires Sound(s) && (op == OpYield || op.OpSlice?)
    ensures Took(T(s.k, x), T(Step(s, op).0.k, x), TurnOf(s, op, x))
  {
    hide Whole, ObjectsGood, MutexesGood, ThreadYield, Took, TurnOf;
    QuietTurn(s, op, x);
    YieldTurns(s, x);
    TookSame(T(s.k, x));
  }

  lemma ResumeTurns(s: State, t: Tid, x: Tid)
    requires Sound(s) && t in s.k.tcb
    ensures Took(T(s.k, x), T(ThreadResume(s, t).0.k, x), TurnOf(s, OpResume(t), x))
  {
    hide Whole, ObjectsGood, MutexesGood, Schedule, AddTail, Put, Took;
    if T(s.k, x).stat == Block { Blocks(s, x); }
    TookSame(T(s.k, x));
    if T(s.k, t).stat == Suspend {
      ResumeTook(s.k, t, x);
      TookScheduled(s.k, AddTail(Put(s.k, t, T(s.k, t).(stat := Ready)), t), x, if x == t then Resumed else Still);
    }
  }

  lemma ResumeTook(k: Core, t: Tid, x: Tid)
    requires Whole(k) && t in k.tcb && T(k, t).stat == Suspend
    ensures var k' := AddTail(Put(k, t, T(k, t).(stat := Ready)), t); Whole(k') && Took(T(k, x), T(k', x), if x == t then Resumed else Still)
  {
    hide Whole, AddTail, Put;
    ResumeOk(k, t);
  }

  lemma SuspendTurns(s: State, t: Tid, x: Tid)
    requires Sound(s) && t in s.k.tcb && t != s.k.idle
    ensures Took(T(s.k, x), T(ThreadSuspend(s, t).0.k, x), TurnOf(s, OpSuspend(t), x))
  {
    hide Sound, Took, ThreadSuspend;
    if T(s.k, x).stat == Block { Blocks(s, x); }
    SuspendedTook(s, t, x);
  }

  lemma SuspendedTook(s: State, t: Tid, x: Tid)
    requires Sound(s) && t in s.k.tcb && t != s.k.idle
    ensures var (st, stops) := (T(s.k, t).stat, Taken(s, t) == [] && T(s.k, t).stat != Dead && T(s.k, t).stat != Suspend);
      Took(T(s.k, x), T(ThreadSuspend(s, t).0.k, x), if x == t && stops then (if st == Block then Cut else Stopped) else Still)
  {
    hide Whole, ObjectsGood, MutexesGood, Schedule, Retire, Took;
    TookSame(T(s.k, x));
    if Taken(s, t) == [] && T(s.k, t).stat != Dead && T(s.k, t).stat != Suspend {
      SuspendTook(s.k, t, x);
      TookScheduled(s.k, Retire(s.k, t, Suspend), x, if x == t then (if T(s.k, t).stat == Block then Cut else Stopped) else Still);
    }
  }

  lemma SuspendTook(k: Core, t: Tid, x: Tid)
    requires Whole(k) && t in k.tcb && t != k.idle
    ensures var k' := Retire(k, t, Suspend);
      Whole(k') && Took(T(k, x), T(k', x), if x == t then (if T(k, t).stat == Block then Cut else Stopped) else Still)
  {
    hide Whole, Retire;
    RetireOk(k, t, Suspend);
  }

  // A thread ends, and its joiners are woken.
  lemma AbortTook(s: State, t: Tid, x: Tid)
    requires Sound(s) && t in s.k.tcb && T(s.k, t).stat != Dead && !T(s.k, t).essential
    ensures Took(T(s.k, x), T(ThreadAbort(s, t).0.k, x), if x == t then Ended else if x in Q(s.k, JoinList(t)) then Given else Still)
  {
    hide Whole, ObjectsGood, MutexesGood, ObjectsGoodBut, Retire, WakeAll, Schedule, Took, Joined;
    RetireOther(s.k, t);
    RetireGood(s, t);
    RetiredOthers(s, t);
    var s1, l := s.(k := Retire(s.k, t, Dead)), JoinList(t);
    Joiners(s1, t);
    WakeAllGood(s1, t);
    var k, turn := WakeAll(s1.k, l), if x == t then Ended else if x in Q(s.k, l) then Given else Still;
    assert T(k, x) == if x in Q(s1.k, l) then Joined(T(s1.k, x)) else T(s1.k, x);
    if x == t {
      TookEnded(T(s.k, x), T(k, x));
    } else if x in Q(s.k, l) {
      OnWait(s.k, x, l);
      NotCut(s.k, x);
      TookJoined(T(s.k, x));
    } else {
      TookSame(T(s.k, x));
    }
    TookScheduled(s.k, k, x, turn);
  }

  lemma TookEnded(c: Tcb, d: Tcb)
    requires d.stat == Dead
    ensures Took(c, d, Ended)
  {
  }

  lemma TookJoined(c: Tcb)
    requires !c.cut
    ensures Took(c, Joined(c), Given)
  {
  }

  lemma AbortTurns(s: State, t: Tid, x: Tid)
    requires Sound(s) && t in s.k.tcb
    ensures Took(T(s.k, x), T(ThreadAbort(s, t).0.k, x), TurnOf(s, OpAbort(t), x))
  {
    hide Whole, ObjectsGood, MutexesGood, ThreadHalt, Took;
    TookSame(T(s.k, x));
    if T(s.k, x).stat == Block { Blocks(s, x); }
    JoinersOf(s, t, x);
    if T(s.k, t).stat != Dead && !T(s.k, t).essential { AbortTook(s, t, x); }
  }

  // Those on t's join list are those waiting in a join of t; nobody does for a dead thread.
  lemma JoinersOf(s: State, t: Tid, x: Tid)
    requires Sound(s)
    ensures var c := T(s.k, x);
      x in Q(s.k, JoinList(t)) <==> c.stat == Block && c.pc.Inside? && c.pc.call.JoinThread? && c.pc.call.id == t
    ensures T(s.k, t).stat == Dead ==> x !in Q(s.k, JoinList(t))
  {
    hide ObjectsGood, MutexesGood;
    assert NodeOk(s.k, x) && ListOk(s.k, JoinList(t));
    NoJoinersOf(s, t);
  }

  lemma NoJoinersOf(s: State, t: Tid)
    requires ObjectsGood(s)
    ensures T(s.k, t).stat == Dead ==> Q(s.k, JoinList(t)) == []
  {
    assert JoinGood(s, t);
  }

  lemma CreateTurns(s: State, t: Tid, prio: nat, essential: bool, x: Tid)
    requires Sound(s) && t !in s.k.tcb && x != t
    ensures Took(T(s.k, x), T(ThreadCreate(s, t, prio, essential).0.k, x), TurnOf(s, OpCreate(t, prio, essential), x))
  {
    hide Whole, ObjectsGood, MutexesGood, Create, Schedule, Took, TurnOf;
    QuietTurn(s, OpCreate(t, prio, essential), x);
    TookSame(T(s.k, x));
    if prio < PRIOS {
      CreateTook(s.k, t, prio, essential, x);
      TookScheduled(s.k, Create(s.k, t, prio, essential), x, Still);
    }
  }

  lemma CreateTook(k: Core, t: Tid, prio: nat, essential: bool, x: Tid)
    requires Whole(k) && t !in k.tcb && prio < PRIOS && x != t
    ensures Whole(Create(k, t, prio, essential)) && Took(T(k, x), T(Create(k, t, prio, essential), x), Still)
  {
    hide Whole, Create;
    CreateOk(k, t, prio, essential);
    assert T(Create(k, t, prio, essential), x) == T(k, x);
  }

  // These steps mean nothing of the kind to any thread.
  lemma QuietTurn(s: State, op: Op, x: Tid)
    requires Sound(s) && (op.OpCreate? || op.OpYield? || op.OpSlice? || op.OpEnter? || op.OpExit?)
    ensures TurnOf(s, op, x) == Still
  {
    hide Whole, ObjectsGood, MutexesGood;
    if T(s.k, x).stat == Block { Blocks(s, x); }
  }

  lemma IrqTurns(s: State, op: Op, x: Tid)
    requires Sound(s) && (op == OpEnter || (op == OpExit && s.k.nest > 0))
    ensures Took(T(s.k, x), T(Step(s, op).0.k, x), TurnOf(s, op, x))
  {
    hide Sound, ExitIrq, Took, TurnOf;
    QuietTurn(s, op, x);
    TookSame(T(s.k, x));
    if op == OpExit { ExitTook(s, x); } else { assert T(EnterIrq(s).k, x) == T(s.k, x); }
  }

  lemma ExitTook(s: State, x: Tid)
    requires Sound(s) && s.k.nest > 0
    ensures Took(T(s.k, x), T(ExitIrq(s).k, x), Still)
  {
    hide Whole, ObjectsGood, MutexesGood, ScheduleCore, Took;
    TookSame(T(s.k, x));
    if s.k.nest == 1 && s.k.asked {
      FlagsWhole(s.k, false, 0);
      var k := s.k.(asked := false, nest := 0);
      assert T(k, x) == T(s.k, x);
      TookScheduled(s.k, k, x, Still);
      assert ExitIrq(s).k == Schedule(k);
    }
  }

  lemma TimerTurns(s: State, t: Tid, x: Tid)
    requires Sound(s) && t in s.k.tcb && T(s.k, t).timer != Disarmed
    ensures Took(T(s.k, x), T(TimerFires(s, t).k, x), TurnOf(s, OpTimer(t), x))
  {
    hide Whole, ObjectsGood, MutexesGood, Schedule, Awaken, Took;
    if T(s.k, x).stat == Block { Blocks(s, x); }
    TimerTook(s.k, t, x);
    TookScheduled(s.k, Awaken(s.k, t, if T(s.k, t).timer == PendTimer then ETIMEOUT else T(s.k, t).error), x, if x == t then TimedOut else Still);
  }

  lemma TimerTook(k: Core, t: Tid, x: Tid)
    requires Whole(k) && t in k.tcb && T(k, t).timer != Disarmed
    ensures var k' := Awaken(k, t, if T(k, t).timer == PendTimer then ETIMEOUT else T(k, t).error);
      Whole(k') && Took(T(k, x), T(k', x), if x == t then TimedOut else Still)
  {
    hide Linked, BitsOk, Awaken;
    AwakenOk(k, t, if T(k, t).timer == PendTimer then ETIMEOUT else T(k, t).error);
  }

  lemma ReturnTurns(s: State, op: Op, x: Tid)
    requires Sound(s) && s.k.nest == 0 && Cur(s).pc.Inside? && op.OpReturn? && Effective(s, op) == op
    ensures Took(T(s.k, x), T(Return(s).0.k, x), TurnOf(s, op, x))
  {
    hide Whole, ObjectsGood, MutexesGood, Leave, QueueSend, QueueRecv, PoolAlloc, Took;
    if T(s.k, x).stat == Block { Blocks(s, x); }
    TookBack(s, x);
    assert Return(s).0 == Leave(s);
  }

  // What every step means for every thread: who goes on, waits, is given what it waits for, times out, is stopped, resumed or
  // ended, and comes back, and with what report.
  lemma StepTurns(s: State, op: Op, x: Tid)
    requires Sound(s) && Legal(s, op) && (op.OpCreate? ==> op.t != x)
    ensures Took(T(s.k, x), T(Step(s, op).0.k, x), TurnOf(s, op, x))
  {
    hide Sound, Took, TurnOf, Effective, SemTake, SemRelease, MutexLock, MutexUnlock, QueueSend, QueueRecv, PoolAlloc, PoolFree, EventSend,
      EventRecv,
      ThreadJoin, ThreadDelay, ThreadYield, ThreadSuspend, ThreadResume, ThreadAbort, ThreadCreate, ExitIrq, TimerFires, SliceTimeout, Return;
    NoFree(s, op);
    if Loops(Effective(s, op)) {
      LoopTurns(s, op, x);
    } else {
      match op
      case OpSemTake(id, timeout) => TakeTurns(s, id, timeout, x);
      case OpSemRelease(id) => ReleaseTurns(s, id, x);
      case OpLock(id, timeout) => LockTurns(s, id, timeout, x);
      case OpUnlock(id) => UnlockTurns(s, id, x);
      case OpFree(id) => FreeTurns(s, id, x);
      case OpEventSend(id, bits) => EventSendTurns(s, id, bits, x);
      case OpEventRecv(id, mask, every, timeout) => EventRecvTurns(s, id, mask, every, timeout, x);
      case OpJoin(t, timeout) => JoinTurns(s, t, timeout, x);
      case OpDelay(n) => DelayTurns(s, n, x);
      case OpYield => YieldSliceTurns(s, op, x);
      case OpSlice(t) => YieldSliceTurns(s, op, x);
      case OpSuspend(t) => SuspendTurns(s, t, x);
      case OpResume(t) => ResumeTurns(s, t, x);
      case OpAbort(t) => AbortTurns(s, t, x);
      case OpCreate(t, prio, essential) => CreateTurns(s, t, prio, essential, x);
      case OpEnter => IrqTurns(s, op, x);
      case OpExit => IrqTurns(s, op, x);
      case OpTimer(t) => TimerTurns(s, t, x);
      case OpReturn => ReturnTurns(s, op, x);
    }
  }

  // A new thread starts outside every call.
  lemma CreatedOutside(s: State, t: Tid, prio: nat, essential: bool)
    requires Sound(s) && t !in s.k.tcb
    ensures T(ThreadCreate(s, t, prio, essential).0.k, t).pc == Outside
  {
    hide Whole, ObjectsGood, MutexesGood, Create, Schedule;
    if prio < PRIOS {
      CreateOk(s.k, t, prio, essential);
      var k := Create(s.k, t, prio, essential);
      ScheduleOk(k);
      assert Alike(T(k, t), T(Schedule(k), t));
    }
  }

  // ----- What a thread has got when it is given what it waits for

  // Between s and s', x's wait got its due: a unit counted as granted, the mutex, a slot, a message or a block on offer, its
  // bits, which were set when its turn came and are no longer, or the end of the thread it joined.
  ghost predicate Got(s: State, s': State, x: Tid)
    requires T(s.k, x).pc.Inside?
  {
    var c := T(s.k, x);
    match c.pc.call
    case TakeSem(id, _) => SemOf(s', id) == SemOf(s, id).(released := SemOf(s, id).released + 1, granted := SemOf(s, id).granted + 1)
    case LockMutex(id, _) => MutexOf(s', id).owner == Thread(x)
    case SendQueue(id, _, _) => |QueueOf(s', id).msgs| == |QueueOf(s, id).msgs| - 1
    case RecvQueue(id, _) => |QueueOf(s', id).msgs| == |QueueOf(s, id).msgs| + 1
    case AllocPool(id, _) => PoolOf(s', id).free == PoolOf(s, id).free + 1
    case RecvEvent(id, _) => exists left :: BitsTaken(left, EventOf(s', id), c.mask, c.every)
    case JoinThread(t, _) => T(s'.k, t).stat == Dead
    case DelayFor(_) => true
  }

  // All, or one, of mask's bits are among left, and after is part of left without them.
  ghost predicate BitsTaken(left: set<nat>, after: set<nat>, mask: set<nat>, every: bool) {
    && (if every then mask <= left else exists b :: b in mask && b in left)
    && after <= left && after !! mask
  }

  lemma {:induction false} LeftParts(bits: set<nat>, ws: seq<Want>, i: nat)
    requires i <= |ws|
    ensures Left(bits, ws) <= Left(bits, ws[..i])
    decreases |ws|
  {
    hide Met;
    if i == 0 {
      LeftShrinks(bits, ws);
    } else {
      assert ws[..i][0] == ws[0] && ws[..i][1..] == ws[1..][..i - 1];
      LeftParts(if Met(bits, ws[0]) then bits - ws[0].mask else bits, ws[1..], i - 1);
    }
  }

  lemma {:induction false} LeftShrinks(bits: set<nat>, ws: seq<Want>)
    ensures Left(bits, ws) <= bits
    decreases |ws|
  {
    hide Met;
    if ws != [] { LeftShrinks(if Met(bits, ws[0]) then bits - ws[0].mask else bits, ws[1..]); }
  }

  lemma GotBits(s: State, id: nat, bits: set<nat>, x: Tid)
    requires Sound(s) && BitsFor(s, id, bits, x)
    ensures exists left :: BitsTaken(left, EventOf(EventSend(s, id, bits), id), T(s.k, x).mask, T(s.k, x).every)
  {
    hide Whole, ObjectsGood, MutexesGood, EventSend, Left, Served, Spent;
    var q, all := Q(s.k, EventList(id)), EventOf(s, id) + bits;
    var ws := Wants(s.k, q);
    var i :| 0 <= i < |q| && q[i] == x && Met(Left(all, Wants(s.k, q[..i])), Want(T(s.k, x).mask, T(s.k, x).every));
    assert Wants(s.k, q[..i]) == ws[..i];
    SendIsGreedy(s, id, bits);
    ServedAt(all, ws, i);
    LeftParts(all, ws, i + 1);
    LeftParts(all, ws[..i + 1], i);
    assert ws[..i + 1][..i] == ws[..i];
    assert BitsTaken(Left(all, ws[..i]), EventOf(EventSend(s, id, bits), id), T(s.k, x).mask, T(s.k, x).every);
  }

  // A wait that ends by being given something got it.
  lemma GivenGot(s: State, op: Op, x: Tid)
    requires Sound(s) && Legal(s, op) && TurnOf(s, op, x) == Given
    ensures T(s.k, x).pc.Inside? && Got(s, Step(s, op).0, x)
  {
    hide Sound, Step, Effective, BitsFor, Legal, BitsTaken;
    NoFree(s, op);
    match T(s.k, x).pc.call
    case TakeSem(id, _) => SemStep(s, op, id);
    case LockMutex(id, _) => GotMutex(s, id);
    case SendQueue(id, _, _) => QueueStep(s, op, id);
    case RecvQueue(id, _) => QueueStep(s, op, id);
    case AllocPool(id, _) => PoolStep(s, op, id);
    case RecvEvent(id, _) => GotEvent(s, op, x);
    case JoinThread(t, _) => GotEnd(s, t, x);
  }

  lemma GotMutex(s: State, id: nat)
    requires Sound(s) && Legal(s, OpUnlock(id)) && MutexOf(s, id).owner == Thread(s.k.cur) && Q(s.k, MutexList(id)) != []
    ensures MutexOf(Step(s, OpUnlock(id)).0, id).owner == Thread(Q(s.k, MutexList(id))[0])
  {
    hide Sound, MutexUnlock;
    UnlockStep(s, id);
  }

  lemma GotEvent(s: State, op: Op, x: Tid)
    requires Sound(s) && op.OpEventSend? && BitsFor(s, op.id, op.bits, x)
    requires T(s.k, x).pc.Inside? && T(s.k, x).pc.call.RecvEvent? && T(s.k, x).pc.call.id == op.id
    ensures Got(s, Step(s, op).0, x)
  {
    hide Sound, EventSend, BitsFor, BitsTaken;
    GotBits(s, op.id, op.bits, x);
  }

  lemma GotEnd(s: State, t: Tid, x: Tid)
    requires Sound(s) && Legal(s, OpAbort(t)) && !T(s.k, t).essential && T(s.k, x).stat == Block
    requires T(s.k, x).pc.Inside? && T(s.k, x).pc.call.JoinThread? && T(s.k, x).pc.call.id == t
    ensures T(Step(s, OpAbort(t)).0.k, t).stat == Dead
  {
    hide Sound, ThreadAbort;
    JoinersOf(s, t, x);
    AbortTook(s, t, t);
  }
}
