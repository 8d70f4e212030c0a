// Runs from the first dispatch that end where the kernel's promises fail: the failures named elsewhere are reachable.
module Instances {
  import opened BitOps
  import opened KernelCore
  import opened Ipc
  import opened Inheritance
  import opened Runs
  import opened Laws

  // What of a thread decides who runs.
  datatype Role = Role(stat: Stat, prio: nat, init: nat, pc: Pc, essential: bool, error: Ending, cut: bool)

  function Seen(c: Tcb): Role { Role(if c.stat == Running then Ready else c.stat, c.prio, c.init, c.pc, c.essential, c.error, c.cut) }

  function Fresh(prio: nat): Role { Role(Ready, prio, prio, Outside, false, EOK, false) }

  ghost predicate Cast(k: Core, cast: map<Tid, Role>) {
    && k.nest == 0 && k.idle == 0 && k.tcb.Keys == cast.Keys
    && forall x {:trigger T(k, x)} | x in cast :: Seen(T(k, x)) == cast[x]
  }

  ghost predicate Plays(s: State, cur: Tid, cast: map<Tid, Role>) {
    Sound(s) && Cast(s.k, cast) && s.k.cur == cur
  }

  ghost predicate Winner(cast: map<Tid, Role>, w: Tid) {
    w in cast && cast[w].stat == Ready && forall x | x in cast && x != w && cast[x].stat == Ready :: cast[w].prio < cast[x].prio
  }

  // Mutexes and wait lists, but for list l, are the same.
  ghost predicate Aside(s: State, s': State, l: ListId) {
    && s'.mutexes == s.mutexes && s'.taken == s.taken
    && forall m: ListId {:trigger Q(s'.k, m)} | !m.ReadyList? && m != l :: Q(s'.k, m) == Q(s.k, m)
  }

  // ----- Steps

  lemma Dispatch(s: State, cast: map<Tid, Role>, w: Tid)
    requires Good(s) && !s.k.asked && Cast(s.k, cast) && Winner(cast, w)
    ensures Plays(Rescheduled(s), w, cast) && Aside(s, Rescheduled(s), ReadyList(0))
  {
    hide Whole, ObjectsGood, MutexesGood;
    ScheduleOk(s.k);
    RescheduledSound(s);
    var k := Schedule(s.k);
    assert forall x :: Alike(T(s.k, x), T(k, x));
    assert T(k, w).stat == Ready ==> T(k, k.cur).prio <= T(k, w).prio;
  }

  lemma Creates(s: State, cur: Tid, cast: map<Tid, Role>, t: Tid, prio: nat, w: Tid)
    requires Plays(s, cur, cast) && cur != 0 && cur in cast && cast[cur].pc == Outside && t !in cast && prio < PRIOS
    requires Winner(cast[t := Fresh(prio)], w)
    ensures var s' := Step(s, OpCreate(t, prio, false)).0;
      Legal(s, OpCreate(t, prio, false)) && Plays(s', w, cast[t := Fresh(prio)]) && Aside(s, s', ReadyList(0))
  {
    hide Whole, ObjectsGood, MutexesGood, Create, Winner, Schedule;
    assert Seen(T(s.k, cur)) == cast[cur];
    var k := Create(s.k, t, prio, false);
    CreateSoundly(s, t, prio, false);
    CreateOk(s.k, t, prio, false);
    assert !s.k.asked;
    forall x | x in cast[t := Fresh(prio)] ensures Seen(T(k, x)) == cast[t := Fresh(prio)][x] { assert x != t ==> T(k, x) == T(s.k, x); }
    Dispatch(s.(k := k), cast[t := Fresh(prio)], w);
  }

  lemma Waits(s: State, cur: Tid, cast: map<Tid, Role>, call: Call, w: Tid)
    requires Plays(s, cur, cast) && cur in cast && MayWait(s, call)
    requires Winner(cast[cur := cast[cur].(stat := Block, pc := Inside(call), error := EOK, cut := false)], w)
    ensures var s' := Wait(s, call);
      && Plays(s', w, cast[cur := cast[cur].(stat := Block, pc := Inside(call), error := EOK, cut := false)]) && Aside(s, s', WaitList(call))
      && Q(s'.k, WaitList(call)) == Insert(Q(s.k, WaitList(call)), WaitPos(s.k, Q(s.k, WaitList(call)), cast[cur].prio), cur)
  {
    hide Whole, ObjectsGood, MutexesGood, Pend, Winner, Schedule;
    assert Seen(T(s.k, cur)) == cast[cur];
    var k, cast' := Pend(s.k, call), cast[cur := cast[cur].(stat := Block, pc := Inside(call), error := EOK, cut := false)];
    PendGood(s, call);
    PendOk(s.k, call);
    forall x | x in cast' ensures Seen(T(k, x)) == cast'[x] { assert x != cur ==> T(k, x) == T(s.k, x); }
    Dispatch(s.(k := k), cast', w);
    assert Q(Schedule(k), WaitList(call)) == Q(k, WaitList(call));
  }

  lemma Locks(s: State, cur: Tid, cast: map<Tid, Role>, id: nat)
    requires Plays(s, cur, cast) && cur != 0 && cur in cast && cast[cur].pc == Outside && MutexOf(s, id).owner == None
    ensures var s' := Step(s, OpLock(id, Forever)).0;
      && Legal(s, OpLock(id, Forever)) && Plays(s', cur, cast) && s'.k == s.k && s' == Take(s, id, cur)
  {
    hide Whole, ObjectsGood, MutexesGood, Sound;
    assert Seen(T(s.k, cur)) == cast[cur];
    StepSound(s, OpLock(id, Forever));
  }

  // The owner is lent the caller's priority.
  lemma Lends(s: State, cur: Tid, cast: map<Tid, Role>, id: nat, o: Tid)
    requires Plays(s, cur, cast) && cur in cast && o in cast && o != cur && MutexOf(s, id).owner == Thread(o) && cast[o].prio > cast[cur].prio
    ensures var s' := Boost(s, id, o);
      && Plays(s', cur, cast[o := cast[o].(prio := cast[cur].prio)]) && s'.taken == s.taken
      && s'.mutexes == s.mutexes[id := MutexOf(s, id).(prio := cast[cur].prio)]
      && forall l: ListId {:trigger Q(s'.k, l)} | !l.ReadyList? :: Q(s'.k, l) == Q(s.k, l)
  {
    hide Whole, ObjectsGood, MutexesGood, ChangePrio;
    assert Seen(T(s.k, cur)) == cast[cur] && Seen(T(s.k, o)) == cast[o];
    var s', cast' := Boost(s, id, o), cast[o := cast[o].(prio := cast[cur].prio)];
    BoostSound(s, id, o);
    BoostedPrio(s.k, o, cast[cur].prio);
    forall x | x in cast' ensures Seen(T(s'.k, x)) == cast'[x] { assert x != o ==> T(s'.k, x) == T(s.k, x); }
  }

  // The caller makes way for a thread of its own priority.
  lemma Yields(s: State, cur: Tid, cast: map<Tid, Role>, w: Tid)
    requires Plays(s, cur, cast) && cur != 0 && cur in cast && cast[cur].pc == Outside
    requires w in cast && w != cur && cast[w].stat == Ready && cast[w].prio == cast[cur].prio
    requires forall x | x in cast && x != cur && x != w && cast[x].stat == Ready :: cast[w].prio < cast[x].prio
    ensures var s' := Step(s, OpYield).0; Legal(s, OpYield) && Plays(s', w, cast) && Aside(s, s', ReadyList(0))
  {
    hide Whole, ObjectsGood, MutexesGood, Schedule, Cast, SameSide;
    Told(s, cur, cast, cur);
    CallingRuns(s);
    StepSound(s, OpYield);
    var s1 := s.(k := Put(s.k, s.k.cur, Cur(s).(yielding := true)));
    Wishes(s, cur, cast);
    Rotates(s1.k, cast, w);
    ScheduleOk(s1.k);
    SideCast(s1.k, Schedule(s1.k), cast);
    SideLists(s.k, s1.k, Schedule(s1.k));
  }

  lemma Wishes(s: State, cur: Tid, cast: map<Tid, Role>)
    requires Plays(s, cur, cast)
    ensures var k := Put(s.k, s.k.cur, Cur(s).(yielding := true)); Whole(k) && Cast(k, cast) && OnlyReady(s.k, k, cur)
  {
    hide Linked, BitsOk, ObjectsGood, MutexesGood;
    var c := Cur(s).(yielding := true);
    PutWhole(s.k, cur, c);
    PutOnly(s.k, cur, c);
    forall x | x in cast ensures Seen(T(Put(s.k, cur, c), x)) == cast[x] { assert Seen(T(s.k, x)) == cast[x]; }
  }

  lemma SideCast(k: Core, k': Core, cast: map<Tid, Role>)
    requires Cast(k, cast) && SameSide(k, k')
    ensures Cast(k', cast)
  {
    forall x | x in cast ensures Seen(T(k', x)) == cast[x] { assert Alike(T(k, x), T(k', x)) && Seen(T(k, x)) == cast[x]; }
  }

  lemma SideLists(k: Core, k1: Core, k': Core)
    requires SameSide(k1, k') && forall l: ListId {:trigger Q(k1, l)} :: !l.ReadyList? ==> Q(k1, l) == Q(k, l)
    ensures forall l: ListId {:trigger Q(k', l)} :: !l.ReadyList? ==> Q(k', l) == Q(k, l)
  {
    forall l: ListId | !l.ReadyList? ensures Q(k', l) == Q(k, l) { assert Q(k1, l) == Q(k, l); }
  }

  lemma Rotates(k: Core, cast: map<Tid, Role>, w: Tid)
    requires Whole(k) && Cast(k, cast) && T(k, k.cur).stat == Running && T(k, k.cur).yielding && k.cur in cast
    requires w in cast && w != k.cur && cast[w].stat == Ready && cast[w].prio == cast[k.cur].prio
    requires forall x | x in cast && x != k.cur && x != w && cast[x].stat == Ready :: cast[w].prio < cast[x].prio
    ensures Schedule(k).cur == w
  {
    hide Linked, BitsOk, ThreadOk, Highest, GiveWay, ContextSwitch, ScheduleCore;
    HighestOk(k);
    Placement(k);
    assert Seen(T(k, w)) == cast[w] && Seen(T(k, k.cur)) == cast[k.cur];
    assert T(k, w).stat == Ready;
    var n := Highest(k).t;
    assert Seen(T(k, n)) == cast[n];
  }

  // The caller gives up a mutex nobody waits for.
  lemma Unlocks(s: State, cur: Tid, cast: map<Tid, Role>, id: nat)
    requires Plays(s, cur, cast) && cur != 0 && cur in cast && cast[cur].pc == Outside
    requires MutexOf(s, id).owner == Thread(cur) && Q(s.k, MutexList(id)) == []
    ensures var (s', p) := (Step(s, OpUnlock(id)).0, LeastPrio(s, cast[cur].init, Minus(Taken(s, cur), id)));
      && Legal(s, OpUnlock(id)) && Plays(s', cur, cast[cur := cast[cur].(prio := p)]) && s'.mutexes == s.mutexes[id := Mutex(None, PRIOS)]
      && forall l: ListId {:trigger Q(s'.k, l)} | !l.ReadyList? :: Q(s'.k, l) == Q(s.k, l)
  {
    hide Whole, ObjectsGood, MutexesGood, Released;
    assert Seen(T(s.k, cur)) == cast[cur];
    CallingRuns(s);
    StepSound(s, OpUnlock(id));
    var s1 := s.(taken := s.taken[cur := Minus(Taken(s, cur), id)]);
    LeastSame(s, s1, cast[cur].init, Taken(s1, cur));
    var k := GiveUp(s, id).k;
    assert T(k, cur) == Cur(s).(prio := LeastPrio(s, cast[cur].init, Minus(Taken(s, cur), id)));
    assert forall x :: x != cur ==> T(k, x) == T(s.k, x);
    assert Step(s, OpUnlock(id)).0.k == k;
  }

  lemma MayLock(s: State, cur: Tid, cast: map<Tid, Role>, id: nat, timeout: Timeout)
    requires Plays(s, cur, cast) && cur != 0 && cur in cast && cast[cur].pc == Outside
    ensures Legal(s, OpLock(id, timeout))
    ensures MutexOf(s, id).owner != None && MutexOf(s, id).owner != Thread(cur) && !timeout.NoWait? ==> MayWait(s, LockMutex(id, timeout))
  {
    hide Good;
    assert Seen(T(s.k, cur)) == cast[cur];
  }

  // The owner is as urgent already.
  lemma Enough(s: State, cur: Tid, cast: map<Tid, Role>, id: nat, o: Tid)
    requires Plays(s, cur, cast) && cur in cast && o in cast && cast[o].prio <= cast[cur].prio
    ensures Boost(s, id, o) == s
  {
    hide Good, ChangePrio;
    assert Seen(T(s.k, cur)) == cast[cur] && Seen(T(s.k, o)) == cast[o];
  }

  lemma Told(s: State, cur: Tid, cast: map<Tid, Role>, t: Tid)
    requires Plays(s, cur, cast) && t in cast
    ensures Seen(T(s.k, t)) == cast[t] && s.k.nest == 0 && s.k.idle == 0 && t in s.k.tcb
  {
    hide Good;
  }

  // ----- Scenes: all that the runs below look at

  datatype Scene = Scene(cur: Tid, cast: map<Tid, Role>, mutexes: map<nat, Mutex>, taken: map<Tid, seq<nat>>, waits: map<ListId, seq<Tid>>) {
    // The current thread is between calls and not the idle one.
    ghost predicate Free() { cur != 0 && cur in cast && cast[cur].pc == Outside }

    function Owner(id: nat): Owner { if id in mutexes then mutexes[id].owner else None }

    function Waiting(l: ListId): seq<Tid> { if l in waits then waits[l] else [] }
  }

  ghost predicate Shows(s: State, c: Scene) {
    && Plays(s, c.cur, c.cast) && s.mutexes == c.mutexes && s.taken == c.taken
    && forall l: ListId {:trigger Q(s.k, l)} | !l.ReadyList? :: Q(s.k, l) == c.Waiting(l)
  }

  // The first n calls of the run are allowed and lead to the scene.
  ghost predicate Stage(ops: seq<Op>, n: nat, c: Scene) {
    n <= |ops| && Allowed(Boot(20, Plain), ops[..n]) && Shows(RunAll(Boot(20, Plain), ops[..n]), c)
  }

  const Plain: Setup := Setup(map[], map[], map[])
  const O: Tid := 1
  const W: Tid := 2
  const X: Tid := 3

  function Idle(): Role { Fresh(PRIOS - 1).(essential := true) }

  function Opening(): Scene { Scene(O, map[0 := Idle(), O := Fresh(20)], map[], map[], map[]) }

  lemma Opens(ops: seq<Op>)
    ensures Stage(ops, 0, Opening())
  {
    hide Sound, Urgent, Inherits;
    BootSound(20, Plain);
    assert ops[..0] == [];
  }

  lemma Goes(ops: seq<Op>, n: nat, c: Scene, d: Scene)
    requires n < |ops| && Stage(ops, n, c)
    requires var s := RunAll(Boot(20, Plain), ops[..n]); Legal(s, ops[n]) && Shows(Step(s, ops[n]).0, d)
    ensures Stage(ops, n + 1, d)
  {
    hide Legal, Step, Shows;
    OneMore(Boot(20, Plain), ops[..n], ops[n]);
    assert ops[..n + 1] == ops[..n] + [ops[n]];
  }

  lemma {:induction false} OneMore(s: State, ops: seq<Op>, op: Op)
    requires Allowed(s, ops) && Legal(RunAll(s, ops), op)
    ensures Allowed(s, ops + [op]) && RunAll(s, ops + [op]) == Step(RunAll(s, ops), op).0
    decreases |ops|
  {
    hide Legal, Step;
    if ops == [] {
      assert [op][1..] == [];
    } else {
      OneMore(Step(s, ops[0]).0, ops[1..], op);
      assert (ops + [op])[1..] == ops[1..] + [op];
    }
  }

  lemma GoCreate(ops: seq<Op>, n: nat, c: Scene, t: Tid, prio: nat, w: Tid)
    requires n < |ops| && Stage(ops, n, c) && ops[n] == OpCreate(t, prio, false)
    requires c.Free() && t !in c.cast && prio < PRIOS && Winner(c.cast[t := Fresh(prio)], w)
    ensures Stage(ops, n + 1, c.(cur := w, cast := c.cast[t := Fresh(prio)]))
  {
    hide Legal, Step, Good, Cast, Winner, RunAll, Allowed;
    Creates(RunAll(Boot(20, Plain), ops[..n]), c.cur, c.cast, t, prio, w);
    Goes(ops, n, c, c.(cur := w, cast := c.cast[t := Fresh(prio)]));
  }

  // The scene once the current thread owns mutex id, free before.
  function Holding(c: Scene, id: nat): Scene {
    c.(mutexes := c.mutexes[id := Mutex(Thread(c.cur), PRIOS)], taken := c.taken[c.cur := [id] + if c.cur in c.taken then c.taken[c.cur] else []])
  }

  lemma GoLock(ops: seq<Op>, n: nat, c: Scene, id: nat)
    requires n < |ops| && Stage(ops, n, c) && ops[n] == OpLock(id, Forever) && c.Free() && id !in c.mutexes
    ensures Stage(ops, n + 1, Holding(c, id))
  {
    hide Legal, Step, Good, Cast, RunAll, Allowed;
    var s := RunAll(Boot(20, Plain), ops[..n]);
    Locks(s, c.cur, c.cast, id);
    Goes(ops, n, c, Holding(c, id));
  }

  // The scene once the owner o of mutex id has been lent the current thread's priority, if that is more urgent.
  function Lending(c: Scene, id: nat, o: Tid): Scene
    requires c.cur in c.cast && o in c.cast && id in c.mutexes
  {
    var p := c.cast[c.cur].prio;
    if c.cast[o].prio > p then c.(cast := c.cast[o := c.cast[o].(prio := p)], mutexes := c.mutexes[id := c.mutexes[id].(prio := p)]) else c
  }

  lemma ShowsLending(s: State, c: Scene, id: nat, o: Tid)
    requires Shows(s, c) && c.cur in c.cast && o in c.cast && o != c.cur && id in c.mutexes && c.mutexes[id].owner == Thread(o)
    ensures Shows(Boost(s, id, o), Lending(c, id, o))
  {
    hide Good, Cast, Boost;
    if c.cast[o].prio > c.cast[c.cur].prio {
      Lends(s, c.cur, c.cast, id, o);
    } else {
      Enough(s, c.cur, c.cast, id, o);
    }
  }

  lemma GoTry(ops: seq<Op>, n: nat, c: Scene, id: nat, o: Tid)
    requires n < |ops| && Stage(ops, n, c) && ops[n] == OpLock(id, NoWait) && c.Free()
    requires o in c.cast && o != c.cur && id in c.mutexes && c.mutexes[id].owner == Thread(o)
    ensures Stage(ops, n + 1, Lending(c, id, o))
  {
    hide Legal, Good, Cast, RunAll, Allowed, Boost, Lending;
    var s := RunAll(Boot(20, Plain), ops[..n]);
    ShowsLending(s, c, id, o);
    MayLock(s, c.cur, c.cast, id, NoWait);
    Goes(ops, n, c, Lending(c, id, o));
  }

  // The scene once the current thread waits, alone, in a call, and w runs.
  function Pending(c: Scene, call: Call, w: Tid): Scene
    requires c.cur in c.cast && !call.DelayFor?
  {
    c.(cur := w, cast := c.cast[c.cur := c.cast[c.cur].(stat := Block, pc := Inside(call), error := EOK, cut := false)], waits := c.waits[WaitList(call) := [c.cur]])
  }

  lemma ShowsPending(s: State, c: Scene, call: Call, w: Tid)
    requires Shows(s, c) && c.cur in c.cast && MayWait(s, call) && c.Waiting(WaitList(call)) == []
    requires Winner(Pending(c, call, w).cast, w)
    ensures Shows(Wait(s, call), Pending(c, call, w))
  {
    hide Good, Cast, Wait, Winner;
    Waits(s, c.cur, c.cast, call, w);
    assert Q(s.k, WaitList(call)) == [];
  }

  lemma GoWait(ops: seq<Op>, n: nat, c: Scene, id: nat, o: Tid, w: Tid)
    requires n < |ops| && Stage(ops, n, c) && ops[n] == OpLock(id, Forever) && c.Free() && c.Waiting(MutexList(id)) == []
    requires o in c.cast && o != c.cur && id in c.mutexes && c.mutexes[id].owner == Thread(o)
    requires Winner(Pending(Lending(c, id, o), LockMutex(id, Forever), w).cast, w)
    ensures Stage(ops, n + 1, Pending(Lending(c, id, o), LockMutex(id, Forever), w))
  {
    hide Legal, Good, Cast, RunAll, Allowed, Boost, Wait, Winner, MayWait;
    var s := RunAll(Boot(20, Plain), ops[..n]);
    ShowsLending(s, c, id, o);
    MayLock(s, c.cur, c.cast, id, Forever);
    MayLock(Boost(s, id, o), c.cur, Lending(c, id, o).cast, id, Forever);
    ShowsPending(Boost(s, id, o), Lending(c, id, o), LockMutex(id, Forever), w);
    Goes(ops, n, c, Pending(Lending(c, id, o), LockMutex(id, Forever), w));
  }

  lemma GoYield(ops: seq<Op>, n: nat, c: Scene, w: Tid)
    requires n < |ops| && Stage(ops, n, c) && ops[n] == OpYield && c.Free()
    requires w in c.cast && w != c.cur && c.cast[w].stat == Ready && c.cast[w].prio == c.cast[c.cur].prio
    requires forall x | x in c.cast && x != c.cur && x != w && c.cast[x].stat == Ready :: c.cast[w].prio < c.cast[x].prio
    ensures Stage(ops, n + 1, c.(cur := w))
  {
    hide Legal, Step, Good, Cast, RunAll, Allowed;
    Yields(RunAll(Boot(20, Plain), ops[..n]), c.cur, c.cast, w);
    Goes(ops, n, c, c.(cur := w));
  }

  lemma GoJoin(ops: seq<Op>, n: nat, c: Scene, t: Tid, w: Tid)
    requires n < |ops| && Stage(ops, n, c) && ops[n] == OpJoin(t, Forever) && c.Free() && c.Waiting(JoinList(t)) == []
    requires t in c.cast && t != c.cur && c.cast[t].stat != Dead && Winner(Pending(c, JoinThread(t, Forever), w).cast, w)
    ensures Stage(ops, n + 1, Pending(c, JoinThread(t, Forever), w))
  {
    hide Good, Cast, RunAll, Allowed, Wait, Winner, MayWait;
    var s := RunAll(Boot(20, Plain), ops[..n]);
    MayJoin(s, c.cur, c.cast, t);
    ShowsPending(s, c, JoinThread(t, Forever), w);
    Goes(ops, n, c, Pending(c, JoinThread(t, Forever), w));
  }

  lemma MayJoin(s: State, cur: Tid, cast: map<Tid, Role>, t: Tid)
    requires Plays(s, cur, cast) && cur != 0 && cur in cast && cast[cur].pc == Outside && t in cast && cast[t].stat != Dead
    ensures Legal(s, OpJoin(t, Forever)) && MayWait(s, JoinThread(t, Forever)) && T(s.k, t).stat != Dead
  {
    hide Good;
    assert Seen(T(s.k, cur)) == cast[cur] && Seen(T(s.k, t)) == cast[t];
  }

  // ----- Nested mutexes

  // W boosts O through mutex 1, then waits for mutex 0; O gives up mutex 1.
  function FallOps(): seq<Op> {
    [OpLock(0, Forever), OpLock(1, Forever), OpCreate(W, 10, false), OpLock(1, NoWait), OpLock(0, Forever), OpUnlock(1)]
  }

  function FallScene(): Scene {
    Scene(O, map[0 := Idle(), O := Fresh(20).(prio := 10), W := Fresh(10).(prio := 10, stat := Block, pc := Inside(LockMutex(0, Forever)))],
      map[0 := Mutex(Thread(O), PRIOS), 1 := Mutex(Thread(O), 10)], map[O := [1, 0]], map[MutexList(0) := [W]])
  }

  // O holds both mutexes, W runs.
  function FallHalf(): Scene {
    Scene(W, map[0 := Idle(), O := Fresh(20), W := Fresh(10)],
      map[0 := Mutex(Thread(O), PRIOS), 1 := Mutex(Thread(O), PRIOS)], map[O := [1, 0]], map[])
  }

  lemma FallHalfway()
    ensures Stage(FallOps(), 3, FallHalf())
  {
    hide Stage;
    var ops := FallOps();
    Opens(ops);
    var c1 := Holding(Opening(), 0);
    GoLock(ops, 0, Opening(), 0);
    var c2 := Holding(c1, 1);
    GoLock(ops, 1, c1, 1);
    GoCreate(ops, 2, c2, W, 10, W);
    assert c1.taken[O] == [0] && c2.taken[O] == [1, 0];
    assert c2.(cur := W, cast := c2.cast[W := Fresh(10)]) == FallHalf();
  }

  lemma FallStage()
    ensures Stage(FallOps(), 5, FallScene())
  {
    hide Stage;
    var ops := FallOps();
    FallHalfway();
    GoTry(ops, 3, FallHalf(), 1, O);
    var c4 := Lending(FallHalf(), 1, O);
    GoWait(ops, 4, c4, 0, O, O);
    assert Pending(Lending(c4, 0, O), LockMutex(0, Forever), O) == FallScene();
  }

  // Each call is allowed; W waits for mutex 0 at priority 10, and its owner is back at priority 20.
  lemma NestedUnlockFails()
    ensures var s := RunAll(Boot(20, Plain), FallOps());
      && Allowed(Boot(20, Plain), FallOps()) && Sound(s) && !Lent(s, 0) && MutexOf(s, 0).owner == Thread(O)
      && W in Q(s.k, MutexList(0)) && T(s.k, O).prio == 20 && T(s.k, W).prio == 10
  {
    hide Sound, Legal, RunAll, Allowed, Cast, Step;
    FallStage();
    var ops, c := FallOps(), FallScene();
    var s := RunAll(Boot(20, Plain), ops[..5]);
    Unlocks(s, O, c.cast, 1);
    assert Minus([1, 0], 1) == [0] && LeastPrio(s, 20, [0]) == 20;
    OneMore(Boot(20, Plain), ops[..5], ops[5]);
    assert ops[..5] + [ops[5]] == ops;
    var d := c.cast[O := Fresh(20).(prio := 20)];
    Told(Step(s, OpUnlock(1)).0, O, d, O);
    Told(Step(s, OpUnlock(1)).0, O, d, W);
  }

  // X holds mutex 1 and waits for mutex 0, whose owner O it has lent its priority; then W finds mutex 1 taken.
  function ChainOps(): seq<Op> {
    [OpLock(0, Forever), OpCreate(X, 15, false), OpLock(1, Forever), OpLock(0, Forever), OpCreate(W, 10, false), OpLock(1, NoWait)]
  }

  function ChainHalf(): Scene {
    Scene(X, map[0 := Idle(), O := Fresh(20), X := Fresh(15)],
      map[0 := Mutex(Thread(O), PRIOS), 1 := Mutex(Thread(X), PRIOS)], map[O := [0], X := [1]], map[])
  }

  lemma ChainHalfway()
    ensures Stage(ChainOps(), 3, ChainHalf())
  {
    hide Stage;
    var ops := ChainOps();
    Opens(ops);
    var c1 := Holding(Opening(), 0);
    GoLock(ops, 0, Opening(), 0);
    GoCreate(ops, 1, c1, X, 15, X);
    var c2 := c1.(cur := X, cast := c1.cast[X := Fresh(15)]);
    GoLock(ops, 2, c2, 1);
    assert c1.taken[O] == [0] && Holding(c2, 1).taken[X] == [1];
    assert Holding(c2, 1) == ChainHalf();
  }

  function ChainScene(): Scene {
    Scene(W, map[0 := Idle(), O := Fresh(20).(prio := 15), X := Fresh(15).(prio := 10, stat := Block, pc := Inside(LockMutex(0, Forever))), W := Fresh(10)],
      map[0 := Mutex(Thread(O), 15), 1 := Mutex(Thread(X), 10)], map[O := [0], X := [1]], map[MutexList(0) := [X]])
  }

  // X waits for mutex 0, O runs at X's priority.
  function ChainThird(): Scene {
    Scene(O, map[0 := Idle(), O := Fresh(20).(prio := 15), X := Fresh(15).(stat := Block, pc := Inside(LockMutex(0, Forever)))],
      map[0 := Mutex(Thread(O), 15), 1 := Mutex(Thread(X), PRIOS)], map[O := [0], X := [1]], map[MutexList(0) := [X]])
  }

  lemma ChainThirdly()
    ensures Stage(ChainOps(), 4, ChainThird())
  {
    hide Stage;
    ChainHalfway();
    GoWait(ChainOps(), 3, ChainHalf(), 0, O, O);
    assert Pending(Lending(ChainHalf(), 0, O), LockMutex(0, Forever), O) == ChainThird();
  }

  lemma ChainStage()
    ensures Stage(ChainOps(), 6, ChainScene())
  {
    hide Stage;
    var ops := ChainOps();
    ChainThirdly();
    var c4 := ChainThird();
    GoCreate(ops, 4, c4, W, 10, W);
    var c5 := c4.(cur := W, cast := c4.cast[W := Fresh(10)]);
    GoTry(ops, 5, c5, 1, X);
    assert Lending(c5, 1, X) == ChainScene();
  }

  // Each call is allowed; X, raised to priority 10, waits for mutex 0, whose owner stays at priority 15.
  lemma ChainedLockFails()
    ensures var s := RunAll(Boot(20, Plain), ChainOps());
      && Allowed(Boot(20, Plain), ChainOps()) && Sound(s) && !Lent(s, 0) && MutexOf(s, 0).owner == Thread(O)
      && X in Q(s.k, MutexList(0)) && T(s.k, O).prio == 15 && T(s.k, X).prio == 10
  {
    hide Sound, Legal, RunAll, Allowed, Cast, Step;
    ChainStage();
    var ops, c := ChainOps(), ChainScene();
    assert ops[..6] == ops;
    var s := RunAll(Boot(20, Plain), ops);
    Told(s, W, c.cast, O);
    Told(s, W, c.cast, X);
  }

  // ----- Calls that leave out the scheduler

  // O, at the priority W lent it, gives up the mutex and goes on at its own.
  function KeepOps(): seq<Op> {
    [OpLock(0, Forever), OpCreate(W, 10, false), OpLock(0, NoWait), OpYield, OpUnlock(0)]
  }

  function KeepScene(): Scene {
    Scene(O, map[0 := Idle(), O := Fresh(20).(prio := 10), W := Fresh(10)], map[0 := Mutex(Thread(O), 10)], map[O := [0]], map[])
  }

  lemma KeepStage()
    ensures Stage(KeepOps(), 4, KeepScene())
  {
    hide Stage;
    var ops := KeepOps();
    Opens(ops);
    var c1 := Holding(Opening(), 0);
    GoLock(ops, 0, Opening(), 0);
    GoCreate(ops, 1, c1, W, 10, W);
    var c2 := c1.(cur := W, cast := c1.cast[W := Fresh(10)]);
    GoTry(ops, 2, c2, 0, O);
    GoYield(ops, 3, Lending(c2, 0, O), O);
    assert c1.taken[O] == [0];
    assert Lending(c2, 0, O).(cur := O) == KeepScene();
  }

  // Each call is allowed; O runs at priority 20 outside any interrupt, and W is ready at priority 10.
  lemma UnlockOmissionHappens()
    ensures var s := RunAll(Boot(20, Plain), KeepOps());
      && Allowed(Boot(20, Plain), KeepOps()) && Sound(s) && !Urgent(s.k) && s.k.nest == 0 && s.k.cur == O
      && T(s.k, O).prio == 20 && T(s.k, W).stat == Ready && T(s.k, W).prio == 10
  {
    hide Good, Legal, RunAll, Allowed, Step;
    KeepStage();
    var ops, c := KeepOps(), KeepScene();
    var s := RunAll(Boot(20, Plain), ops[..4]);
    Unlocks(s, O, c.cast, 0);
    assert Minus([0], 0) == [];
    OneMore(Boot(20, Plain), ops[..4], ops[4]);
    assert ops[..4] + [ops[4]] == ops;
    Outranked(Step(s, OpUnlock(0)).0, c.cast[O := Fresh(20)]);
  }

  lemma Outranked(s: State, cast: map<Tid, Role>)
    requires Plays(s, O, cast) && O in cast && W in cast && cast[O].prio == 20 && cast[W].stat == Ready && cast[W].prio == 10
    ensures T(s.k, O).prio == 20 && T(s.k, W).stat == Ready && T(s.k, W).prio == 10 && !Urgent(s.k) && s.k.nest == 0
  {
    hide Linked, BitsOk, ObjectsGood, MutexesGood, ThreadOk;
    Told(s, O, cast, O);
    Told(s, O, cast, W);
  }

  // O aborts X, for which the more urgent W waits.
  function DropOps(): seq<Op> {
    [OpCreate(X, 25, false), OpCreate(W, 10, false), OpJoin(X, Forever), OpAbort(X)]
  }

  function DropScene(): Scene {
    Scene(O, map[0 := Idle(), O := Fresh(20), X := Fresh(25), W := Fresh(10).(prio := 10, stat := Block, pc := Inside(JoinThread(X, Forever)))],
      map[], map[], map[JoinList(X) := [W]])
  }

  lemma DropStage(ops: seq<Op>)
    requires |ops| >= 3 && ops[0] == OpCreate(X, 25, false) && ops[1] == OpCreate(W, 10, false) && ops[2] == OpJoin(X, Forever)
    ensures Stage(ops, 3, DropScene())
  {
    hide Stage;
    Opens(ops);
    GoCreate(ops, 0, Opening(), X, 25, O);
    var c1 := Opening().(cast := Opening().cast[X := Fresh(25)]);
    GoCreate(ops, 1, c1, W, 10, W);
    var c2 := c1.(cur := W, cast := c1.cast[W := Fresh(10)]);
    GoJoin(ops, 2, c2, X, O);
    assert Pending(c2, JoinThread(X, Forever), O) == DropScene();
  }

  lemma Aborts(s: State, cast: map<Tid, Role>)
    requires Plays(s, O, cast) && {O, X, W} <= cast.Keys && cast[O].pc == Outside && !cast[X].essential && cast[X].stat == Ready && cast[W].stat == Block
    requires Q(s.k, JoinList(X)) == [W]
    ensures Legal(s, OpAbort(X)) && Plays(Step(s, OpAbort(X)).0, O, cast[X := cast[X].(stat := Dead)][W := cast[W].(stat := Ready, error := EOK)])
  {
    hide Whole, ObjectsGood, MutexesGood, ObjectsGoodBut, Retire, WakeAll;
    Told(s, O, cast, O);
    Told(s, O, cast, X);
    StepSound(s, OpAbort(X));
    RetireOther(s.k, X);
    RetireGood(s, X);
    RetiredOthers(s, X);
    RetireOk(s.k, X, Dead);
    var s1 := s.(k := Retire(s.k, X, Dead));
    Joiners(s1, X);
    WakeAllGood(s1, X);
    var k, cast' := WakeAll(s1.k, JoinList(X)), cast[X := cast[X].(stat := Dead)][W := cast[W].(stat := Ready, error := EOK)];
    forall x | x in cast' ensures Seen(T(k, x)) == cast'[x] {
      Told(s, O, cast, x);
      assert x in Q(s1.k, JoinList(X)) <==> x == W;
      assert x != X ==> T(s1.k, x) == T(s.k, x);
    }
  }

  // Each call is allowed; O runs at priority 20 outside any interrupt, and W is ready at priority 10.
  lemma AbortOmissionHappens()
    ensures var s := RunAll(Boot(20, Plain), DropOps());
      && Allowed(Boot(20, Plain), DropOps()) && Sound(s) && !Urgent(s.k) && s.k.nest == 0 && s.k.cur == O
      && T(s.k, O).prio == 20 && T(s.k, W).stat == Ready && T(s.k, W).prio == 10
  {
    hide Good, RunAll, Allowed, Step, Cast;
    var ops, c := DropOps(), DropScene();
    DropStage(ops);
    var s := RunAll(Boot(20, Plain), ops[..3]);
    Aborts(s, c.cast);
    OneMore(Boot(20, Plain), ops[..3], ops[3]);
    assert ops[..3] + [ops[3]] == ops;
    Outranked(Step(s, OpAbort(X)).0, c.cast[X := c.cast[X].(stat := Dead)][W := c.cast[W].(stat := Ready, error := EOK)]);
  }

  // ----- A wait cut short

  // W waits for X to end; O suspends W and resumes it.
  function CutOps(): seq<Op> {
    [OpCreate(X, 25, false), OpCreate(W, 10, false), OpJoin(X, Forever), OpSuspend(W), OpResume(W)]
  }

  lemma Suspends(s: State, cast: map<Tid, Role>)
    requires Plays(s, O, cast) && {O, W} <= cast.Keys && cast[O].pc == Outside && cast[W].stat == Block && Winner(cast, O) && Taken(s, W) == []
    ensures Legal(s, OpSuspend(W)) && Plays(Step(s, OpSuspend(W)).0, O, cast[W := cast[W].(stat := Suspend, cut := true)])
  {
    hide Whole, ObjectsGood, MutexesGood, Retire, Schedule, Cast, Winner;
    Told(s, O, cast, O);
    Told(s, O, cast, W);
    RetireGood(s, W);
    SuspendCast(s.k, cast);
    StillWinner(cast, W, cast[W].(stat := Suspend, cut := true));
    Dispatch(s.(k := Retire(s.k, W, Suspend)), cast[W := cast[W].(stat := Suspend, cut := true)], O);
  }

  lemma SuspendCast(k: Core, cast: map<Tid, Role>)
    requires Whole(k) && Cast(k, cast) && W in cast && cast[W].stat == Block
    ensures Cast(Retire(k, W, Suspend), cast[W := cast[W].(stat := Suspend, cut := true)]) && Retire(k, W, Suspend).asked == k.asked
  {
    hide Whole, Retire;
    RetireOk(k, W, Suspend) by { assert Seen(T(k, W)) == cast[W]; BlockedNotIdle(k, W); }
    var k', cast' := Retire(k, W, Suspend), cast[W := cast[W].(stat := Suspend, cut := true)];
    assert Seen(T(k, W)) == cast[W];
    forall x | x in cast' ensures Seen(T(k', x)) == cast'[x] {
      assert x != W ==> T(k', x) == T(k, x) && Seen(T(k, x)) == cast[x];
    }
  }

  lemma BlockedNotIdle(k: Core, t: Tid)
    requires Whole(k) && T(k, t).stat == Block
    ensures t != k.idle
  {
  }

  lemma StillWinner(cast: map<Tid, Role>, t: Tid, r: Role)
    requires Winner(cast, O) && t != O && r.stat != Ready
    ensures Winner(cast[t := r], O)
  {
  }

  lemma Resumes(s: State, cast: map<Tid, Role>)
    requires Plays(s, O, cast) && {O, W} <= cast.Keys && cast[O].pc == Outside && cast[W].stat == Suspend && Winner(cast[W := cast[W].(stat := Ready)], W)
    ensures Legal(s, OpResume(W)) && Plays(Step(s, OpResume(W)).0, W, cast[W := cast[W].(stat := Ready)])
  {
    hide Whole, ObjectsGood, MutexesGood, AddTail, Put, Schedule, Cast, Winner;
    Told(s, O, cast, O);
    Told(s, O, cast, W);
    ResumeCast(s.k, cast);
    var k := AddTail(Put(s.k, W, T(s.k, W).(stat := Ready)), W);
    MinorGood(s, k, W);
    Dispatch(s.(k := k), cast[W := cast[W].(stat := Ready)], W);
  }

  lemma ResumeCast(k: Core, cast: map<Tid, Role>)
    requires Whole(k) && Cast(k, cast) && W in cast && cast[W].stat == Suspend
    ensures var k' := AddTail(Put(k, W, T(k, W).(stat := Ready)), W);
      Whole(k') && Cast(k', cast[W := cast[W].(stat := Ready)]) && Minor(k, k', W) && k'.asked == k.asked
  {
    hide Whole, AddTail, Put;
    assert Seen(T(k, W)) == cast[W];
    ResumeOk(k, W);
    var k', cast' := AddTail(Put(k, W, T(k, W).(stat := Ready)), W), cast[W := cast[W].(stat := Ready)];
    forall x | x in cast' ensures Seen(T(k', x)) == cast'[x] {
      assert x != W ==> T(k', x) == T(k, x) && Seen(T(k, x)) == cast[x];
    }
  }

  function CutCast(): map<Tid, Role> {
    var c := DropScene().cast;
    c[W := c[W].(stat := Suspend, cut := true)][W := c[W].(stat := Ready, cut := true)]
  }

  lemma CutStage()
    ensures Allowed(Boot(20, Plain), CutOps()) && Plays(RunAll(Boot(20, Plain), CutOps()), W, CutCast())
  {
    hide Good, Legal, RunAll, Allowed, Step, Cast;
    var ops, c := CutOps(), DropScene();
    DropStage(ops);
    var s3 := RunAll(Boot(20, Plain), ops[..3]);
    Suspends(s3, c.cast);
    OneMore(Boot(20, Plain), ops[..3], ops[3]);
    assert ops[..4] == ops[..3] + [ops[3]];
    Resumes(Step(s3, OpSuspend(W)).0, c.cast[W := c.cast[W].(stat := Suspend, cut := true)]);
    OneMore(Boot(20, Plain), ops[..4], ops[4]);
    assert ops == ops[..4] + [ops[4]];
  }

  // Each call is allowed; the join of W returns EOK, and X lives.
  lemma CutJoinReturns()
    ensures var s := RunAll(Boot(20, Plain), CutOps());
      && Allowed(Boot(20, Plain), CutOps()) && Sound(s) && s.k.nest == 0 && s.k.cur == W && Cur(s).pc == Inside(JoinThread(X, Forever))
      && Return(s).1 == Done(EOK) && Cur(s).cut && X in s.k.tcb && T(s.k, X).stat != Dead
  {
    hide Good, Allowed, RunAll, Cast;
    CutStage();
    Told(RunAll(Boot(20, Plain), CutOps()), W, CutCast(), W);
    Told(RunAll(Boot(20, Plain), CutOps()), W, CutCast(), X);
  }
}
