// What a call returns after it has waited, in any run from the first dispatch.
module Returns {
  import opened BitOps
  import opened KernelCore
  import opened Ipc
  import opened Runs
  import opened Effects
  import opened Waits

  // Behind a wait, other than a delay, that is over.
  ghost predicate Parked(c: Tcb) { c.pc.Inside? && !c.pc.call.DelayFor? && (LifeOf(c) == Able || LifeOf(c) == Halted) }

  ghost predicate EndsWait(turn: Turn) { turn == Given || turn == TimedOut || turn == Cut }

  // Step i of the run ends a wait of x, in the call x is still in, and since then x was stopped and resumed at most.
  ghost predicate EndedAt(s: State, ops: seq<Op>, i: nat, x: Tid) {
    && i < |ops| && EndsWait(TurnAt(s, ops, i, x)) && T(RunAll(s, ops[..i]).k, x).pc == T(RunAll(s, ops).k, x).pc
    && forall j | i < j < |ops| :: TurnAt(s, ops, j, x) == Still || TurnAt(s, ops, j, x) == Stopped || TurnAt(s, ops, j, x) == Resumed
  }

  // What step j of the run means for x.
  ghost function TurnAt(s: State, ops: seq<Op>, j: nat, x: Tid): Turn
    requires j < |ops|
  {
    TurnOf(RunAll(s, ops[..j]), ops[j], x)
  }

  // What the end of a wait leaves for its call to report.
  ghost predicate Reports(c: Tcb, turn: Turn) {
    c.error == (if turn == TimedOut then ETIMEOUT else EOK) && c.cut == (turn == Cut)
  }

  lemma {:induction false} RunMore(s: State, ops: seq<Op>, op: Op)
    ensures RunAll(s, ops + [op]) == Step(RunAll(s, ops), op).0
    ensures Allowed(s, ops + [op]) <==> Allowed(s, ops) && Legal(RunAll(s, ops), op)
    decreases |ops|
  {
    hide Step, Legal;
    if ops == [] {
      assert [] + [op] == [op];
    } else {
      assert (ops + [op])[0] == ops[0] && (ops + [op])[1..] == ops[1..] + [op];
      RunMore(Step(s, ops[0]).0, ops[1..], op);
    }
  }

  // A wait that ends leaves the thread with the report that goes with it.
  lemma EndReports(s: State, op: Op, x: Tid)
    requires Sound(s) && Legal(s, op) && EndsWait(TurnOf(s, op, x)) && Parked(T(Step(s, op).0.k, x))
    requires op.OpCreate? ==> op.t != x
    ensures T(s.k, x).pc == T(Step(s, op).0.k, x).pc && Reports(T(Step(s, op).0.k, x), TurnOf(s, op, x))
  {
    hide Good, Step, TurnOf, Legal;
    StepTurns(s, op, x);
    EndsBlocked(s, op, x);
  }

  lemma EndsBlocked(s: State, op: Op, x: Tid)
    requires Sound(s) && Legal(s, op) && EndsWait(TurnOf(s, op, x)) && T(s.k, x).pc.Inside? && !T(s.k, x).pc.call.DelayFor?
    ensures var c := T(s.k, x); c.stat == Block && !c.cut && c.error == EOK && (TurnOf(s, op, x) == TimedOut ==> c.timer == PendTimer)
  {
    hide Linked, BitsOk, ObjectsGood, MutexesGood, Provides, Awaits;
  }

  // A thread found behind a wait has had it ended at one step of the run, and carries the report of that step.
  lemma {:induction false} WaitEnded(s: State, ops: seq<Op>, x: Tid) returns (i: nat)
    requires Sound(s) && Allowed(s, ops) && T(s.k, x).pc == Outside && Parked(T(RunAll(s, ops).k, x))
    ensures EndedAt(s, ops, i, x) && Reports(T(RunAll(s, ops).k, x), TurnAt(s, ops, i, x))
    decreases |ops|
  {
    hide Sound, Legal, Step, TurnOf, Reports, EndsWait;
    assert ops != [];
    var n := |ops| - 1;
    var past, op := ops[..n], ops[n];
    assert ops == past + [op];
    RunMore(s, past, op);
    RunSound(s, past);
    var a := RunAll(s, past);
    if EndsWait(TurnOf(a, op, x)) && !(op.OpCreate? && op.t == x) {
      EndReports(a, op, x);
      i := n;
    } else {
      GoesOn(a, op, x);
      i := WaitEnded(s, past, x);
      Later(s, past, op, i, x);
      ReportKept(T(a.k, x), T(RunAll(s, ops).k, x), TurnAt(s, ops, i, x));
    }
  }

  lemma ReportKept(c: Tcb, d: Tcb, turn: Turn)
    requires Reports(c, turn) && SameReport(c, d)
    ensures Reports(d, turn)
  {
  }

  // A step that does not end x's wait finds x behind it already.
  lemma GoesOn(s: State, op: Op, x: Tid)
    requires Sound(s) && Legal(s, op) && Parked(T(Step(s, op).0.k, x)) && (!EndsWait(TurnOf(s, op, x)) || (op.OpCreate? && op.t == x))
    ensures var (c, d, turn) := (T(s.k, x), T(Step(s, op).0.k, x), TurnOf(s, op, x));
      Parked(c) && SameReport(c, d) && (turn == Still || turn == Stopped || turn == Resumed)
  {
    hide Sound, Legal, Step, TurnOf;
    if op.OpCreate? && op.t == x {
      NotCreated(s, op, x);
    } else {
      StepTurns(s, op, x);
      ResumedFrom(s, op, x);
    }
  }

  lemma NotCreated(s: State, op: Op, x: Tid)
    requires Sound(s) && Legal(s, op) && Parked(T(Step(s, op).0.k, x))
    ensures !(op.OpCreate? && op.t == x)
  {
    hide Sound, ThreadCreate;
    if op.OpCreate? && op.t == x { CreatedOutside(s, x, op.prio, op.essential); }
  }

  lemma ResumedFrom(s: State, op: Op, x: Tid)
    requires Sound(s)
    ensures TurnOf(s, op, x) == Resumed ==> T(s.k, x).stat == Suspend
    ensures TurnOf(s, op, x) == Stopped ==> Runnable(T(s.k, x))
  {
    hide Sound, Provides, Awaits;
  }

  lemma Later(s: State, past: seq<Op>, op: Op, i: nat, x: Tid)
    requires EndedAt(s, past, i, x) && T(RunAll(s, past).k, x).pc == T(RunAll(s, past + [op]).k, x).pc
    requires var turn := TurnOf(RunAll(s, past), op, x); turn == Still || turn == Stopped || turn == Resumed
    ensures EndedAt(s, past + [op], i, x) && TurnAt(s, past + [op], i, x) == TurnAt(s, past, i, x)
  {
    hide TurnOf, RunAll;
    var ops := past + [op];
    forall j | 0 <= j < |past| ensures TurnAt(s, ops, j, x) == TurnAt(s, past, j, x) { assert ops[..j] == past[..j]; }
    assert ops[..i] == past[..i] && ops[..|past|] == past;
  }

  // ----- What the call returns

  // The caller is back, and nothing else is different.
  ghost predicate OnlyBack(s: State, s': State) { s' == s.(k := Put(s.k, s.k.cur, Cur(s).(pc := Outside))) }

  // Calls that look again for room, a message or a block; the others return what the end of their wait reported.
  ghost predicate LooksOnce(call: Call) { call.TakeSem? || call.LockMutex? || call.RecvEvent? || call.JoinThread? }

  // The return from a wait, by the report it finds.
  lemma ReturnBy(s: State)
    requires Sound(s) && s.k.nest == 0 && Cur(s).pc.Inside? && !Cur(s).pc.call.DelayFor?
    ensures var ((s', r), call) := (Step(s, OpReturn), Cur(s).pc.call);
      && (Cur(s).error == ETIMEOUT ==> r == Done(ETIMEOUT) && OnlyBack(s, s'))
      && (Cur(s).error == EOK && LooksOnce(call) ==> r == Done(EOK) && OnlyBack(s, s'))
      && (Cur(s).error == EOK && !LooksOnce(call) ==> (s', r) == Step(s, Again(call)) && r != Done(ETIMEOUT))
  {
    hide Sound, QueueSend, QueueRecv, PoolAlloc;
    match Cur(s).pc.call
    case SendQueue(id, msg, timeout) => SendOnly(s, id, msg, timeout);
    case RecvQueue(id, timeout) => RecvOnly(s, id, timeout);
    case AllocPool(id, timeout) => AllocOnly(s, id, timeout);
    case _ =>
  }

  // The call made anew.
  function Again(call: Call): Op {
    match call
    case SendQueue(id, msg, timeout) => OpSend(id, msg, timeout)
    case RecvQueue(id, timeout) => OpRecv(id, timeout)
    case AllocPool(id, timeout) => OpAlloc(id, timeout)
    case _ => OpReturn
  }

  // In every run: a dispatched thread behind a wait has had that wait ended at one step. The call returns a timeout exactly if
  // that was its timer, and then leaves every object as it is. If it was not, a take, a lock, an event receive or a join returns EOK, and
  // was given at that step what it asked for or else was suspended; a queue or pool call is made anew.
  lemma ReturnTells(prio: nat, o: Setup, ops: seq<Op>) returns (i: nat)
    requires prio < PRIOS && o.Ok() && Allowed(Boot(prio, o), ops)
    requires var s := RunAll(Boot(prio, o), ops); s.k.nest == 0 && Cur(s).pc.Inside? && !Cur(s).pc.call.DelayFor?
    ensures var (b, s) := (Boot(prio, o), RunAll(Boot(prio, o), ops));
      && EndedAt(b, ops, i, s.k.cur)
      && var ((s', r), call, turn, before) := (Step(s, OpReturn), Cur(s).pc.call, TurnAt(b, ops, i, s.k.cur), RunAll(b, ops[..i]));
         && (r == Done(ETIMEOUT) <==> turn == TimedOut) && (turn == TimedOut ==> ops[i] == OpTimer(s.k.cur) && OnlyBack(s, s'))
         && (turn != TimedOut && LooksOnce(call) ==> r == Done(EOK) && OnlyBack(s, s') && (turn == Cut <==> Cur(s).cut))
         && (turn != TimedOut && !LooksOnce(call) ==> (s', r) == Step(s, Again(call)))
         && (turn == Given ==> T(before.k, s.k.cur).pc.Inside? && Got(before, Step(before, ops[i]).0, s.k.cur))
         && (turn == Cut ==> ops[i] == OpSuspend(s.k.cur))
  {
    hide Good, Allowed, RunAll, Urgent, TurnOf, Step, OnlyBack, Got;
    var b := Boot(prio, o);
    var s := RunAll(b, ops);
    BootSound(prio, o);
    RunSound(b, ops);
    CallingRuns(s);
    BootOutside(prio, o, s.k.cur);
    i := WaitEnded(b, ops, s.k.cur);
    ReturnBy(s);
    Prefix(b, ops, i);
    RunSound(b, ops[..i]);
    EndsHow(RunAll(b, ops[..i]), ops[i], s.k.cur);
    if TurnAt(b, ops, i, s.k.cur) == Given { GivenGot(RunAll(b, ops[..i]), ops[i], s.k.cur); }
  }

  lemma BootOutside(prio: nat, o: Setup, x: Tid)
    requires prio < PRIOS
    ensures T(Boot(prio, o).k, x).pc == Outside
  {
  }

  lemma EndsHow(s: State, op: Op, x: Tid)
    ensures TurnOf(s, op, x) == TimedOut ==> op == OpTimer(x)
    ensures TurnOf(s, op, x) == Cut ==> op == OpSuspend(x)
  {
    hide Provides, Awaits;
  }

  // Up to step i each step is allowed, and so is step i.
  lemma {:induction false} Prefix(s: State, ops: seq<Op>, i: nat)
    requires Allowed(s, ops) && i < |ops|
    ensures Allowed(s, ops[..i]) && Legal(RunAll(s, ops[..i]), ops[i])
    decreases |ops|
  {
    hide Legal, Step;
    if i > 0 {
      assert ops[..i][0] == ops[0] && ops[..i][1..] == ops[1..][..i - 1];
      Prefix(Step(s, ops[0]).0, ops[1..], i - 1);
    }
  }
}
