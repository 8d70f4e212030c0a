// Whole runs from the first dispatch.
module Runs {
  import opened BitOps
  import opened KernelCore
  import opened Ipc
  import opened Inheritance
  import opened Wakeups

  // The objects set up before the first dispatch, as their init functions leave them.
  datatype Setup = Setup(sems: map<nat, Sem>, queues: map<nat, Queue>, pools: map<nat, Pool>) {
    ghost predicate Ok() {
      && (forall id | id in sems :: sems[id] == Sem(sems[id].init, sems[id].init, 0, 0))
      && (forall id | id in queues :: queues[id] == Queue(queues[id].max, [], [], []) && queues[id].max >= 1)
      && (forall id | id in pools :: pools[id].free == pools[id].total)
    }
  }

  // After the first dispatch: thread 1 runs and the idle thread 0 is ready.
  function Boot(prio: nat, o: Setup): State
    requires prio < PRIOS
  {
    var tcb := map[0 := NewThread(PRIOS - 1, true).(qnode := On(ReadyList(PRIOS - 1))), 1 := NewThread(prio, false).(stat := Running)];
    State(Core(tcb, map[ReadyList(PRIOS - 1) := [0]], Zero[PRIOS - 1 := true], 1, 0, 0, false, 1),
      o.sems, map[], map[], o.queues, o.pools, map[])
  }

  lemma BootSound(prio: nat, o: Setup)
    requires prio < PRIOS && o.Ok()
    ensures var s := Boot(prio, o); Sound(s) && Urgent(s.k) && Inherits(s, true) && Inherits(s, false) && NoneLost(s)
  {
    hide ThreadOk;
    var s := Boot(prio, o);
    assert Whole(s.k) by { BootWhole(prio, o); }
    forall l ensures Q(s.k, l) == [] || l == ReadyList(PRIOS - 1) { }
    forall x ensures SemGood(s, x) && QueueGood(s, x) && EventGood(s, x) && JoinGood(s, x) { }
    forall x ensures MutexGood(s, x) && TakenGood(s, x) && LockGood(s, x) { }
    forall x ensures Single(s, x, true) && Single(s, x, false) && Queued(s, x) && Lent(s, x) { }
  }

  lemma BootWhole(prio: nat, o: Setup)
    requires prio < PRIOS && o.Ok()
    ensures Whole(Boot(prio, o).k)
  {
    var s := Boot(prio, o);
    forall l ensures ListOk(s.k, l) { assert l != ReadyList(PRIOS - 1) ==> Q(s.k, l) == []; }
    forall t ensures NodeOk(s.k, t) { }
    forall p | 0 <= p < PRIOS ensures BitOk(s.k, p) { }
  }

  function RunAll(s: State, ops: seq<Op>): State
    decreases |ops|
  {
    if ops == [] then s else RunAll(Step(s, ops[0]).0, ops[1..])
  }

  // Each step is one its caller may take.
  ghost predicate Allowed(s: State, ops: seq<Op>)
    decreases |ops|
  {
    ops != [] ==> Legal(s, ops[0]) && Allowed(Step(s, ops[0]).0, ops[1..])
  }

  // In every run the lists, bitmap, timers, mutexes, queues, semaphores and events are sound.
  lemma {:induction false} RunSound(s: State, ops: seq<Op>)
    requires Sound(s) && Allowed(s, ops)
    ensures Sound(RunAll(s, ops))
    decreases |ops|
  {
    hide Sound, Legal, Step;
    if ops != [] {
      StepSound(s, ops[0]);
      RunSound(Step(s, ops[0]).0, ops[1..]);
    }
  }

  ghost predicate NoneOmits(s: State, ops: seq<Op>)
    decreases |ops|
  {
    ops != [] ==> !Omits(s, ops[0]) && NoneOmits(Step(s, ops[0]).0, ops[1..])
  }

  // In runs without the two calls that skip the scheduler, the most urgent thread runs whenever no request is pending.
  lemma {:induction false} RunUrgent(s: State, ops: seq<Op>)
    requires Sound(s) && Urgent(s.k) && Allowed(s, ops) && NoneOmits(s, ops)
    ensures Urgent(RunAll(s, ops).k) && (RunAll(s, ops).k.nest == 0 ==> Optimal(RunAll(s, ops).k))
    decreases |ops|
  {
    hide Good, Legal, Step, Omits, Optimal;
    if ops != [] {
      StepSound(s, ops[0]);
      RunUrgent(Step(s, ops[0]).0, ops[1..]);
    }
  }

  // At every state of the run, each owner is as urgent as its waiters and each wait list of a mutex in order.
  ghost predicate AllInherit(s: State, ops: seq<Op>, alone: bool)
    decreases |ops|
  {
    Inherits(s, alone) && (ops != [] ==> AllInherit(Step(s, ops[0]).0, ops[1..], alone))
  }

  ghost predicate NoneHarms(s: State, ops: seq<Op>)
    decreases |ops|
  {
    ops != [] ==> !Harms(s, ops[0]) && NoneHarms(Step(s, ops[0]).0, ops[1..])
  }

  // Inheritance holds all along a run, with any nesting of mutexes, exactly if no step of it does harm.
  lemma {:induction false} RunInherits(s: State, ops: seq<Op>)
    requires Sound(s) && Inherits(s, false) && Allowed(s, ops)
    ensures AllInherit(s, ops, false) <==> NoneHarms(s, ops)
    decreases |ops|
  {
    hide Sound, Inherits, Legal, Step, Harms;
    if ops != [] {
      var s' := Step(s, ops[0]).0;
      StepSound(s, ops[0]);
      StepInherits(s, ops[0], false);
      if Harms(s, ops[0]) {
        assert AllInherit(s', ops[1..], false) ==> Inherits(s', false);
      } else {
        RunInherits(s', ops[1..]);
      }
    }
  }

  ghost predicate AllDisciplined(s: State, ops: seq<Op>)
    decreases |ops|
  {
    ops != [] ==> Disciplined(s, ops[0]) && AllDisciplined(Step(s, ops[0]).0, ops[1..])
  }

  // In runs where threads lock only while holding nothing, no step does harm: no owner is ever less urgent than a thread
  // waiting for it.
  lemma {:induction false} DisciplinedInherits(s: State, ops: seq<Op>)
    requires Sound(s) && Inherits(s, true) && Allowed(s, ops) && AllDisciplined(s, ops)
    ensures AllInherit(s, ops, true) && NoneHarms(s, ops)
    decreases |ops|
  {
    hide Sound, Inherits, Legal, Step, Disciplined, Harms;
    if ops != [] {
      StepSound(s, ops[0]);
      AloneHarmless(s, ops[0]);
      StepInherits(s, ops[0], true);
      DisciplinedInherits(Step(s, ops[0]).0, ops[1..]);
    }
  }

  ghost predicate AllSpare(s: State, ops: seq<Op>)
    decreases |ops|
  {
    ops != [] ==> Spares(s, ops[0]) && AllSpare(Step(s, ops[0]).0, ops[1..])
  }

  // In runs that abort nobody between wake-up and retry, no message, slot or block on offer goes unseen.
  lemma {:induction false} RunCovered(s: State, ops: seq<Op>)
    requires Sound(s) && NoneLost(s) && Allowed(s, ops) && AllSpare(s, ops)
    ensures NoneLost(RunAll(s, ops))
    decreases |ops|
  {
    hide Sound, NoneLost, Legal, Step, Spares;
    if ops != [] {
      StepSound(s, ops[0]);
      StepCovered(s, ops[0]);
      RunCovered(Step(s, ops[0]).0, ops[1..]);
    }
  }
}
