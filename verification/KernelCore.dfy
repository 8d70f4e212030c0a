// The thread side of the kernel: control blocks, ready and wait lists, scheduler.
module KernelCore {
  import opened BitOps

  type Tid = nat

  const PRIOS: nat := 32

  datatype Stat = Ready | Running | Block | Suspend | Dead

  datatype Timeout = NoWait | Ticks(n: nat) | Forever

  // The calls a thread can be blocked in.
  datatype Call =
    | TakeSem(id: nat, timeout: Timeout)
    | LockMutex(id: nat, timeout: Timeout)
    | SendQueue(id: nat, msg: nat, timeout: Timeout)
    | RecvQueue(id: nat, timeout: Timeout)
    | AllocPool(id: nat, timeout: Timeout)
    | RecvEvent(id: nat, timeout: Timeout)
    | JoinThread(id: nat, timeout: Timeout)
    | DelayFor(n: nat)

  // The kernel's thread lists, each named by its head.
  datatype ListId = ReadyList(p: nat) | SemList(id: nat) | MutexList(id: nat) | SendList(id: nat) | RecvList(id: nat)
    | PoolList(id: nat) | EventList(id: nat) | JoinList(id: nat)

  // What a thread's qnode is linked into; Unlinked is the null next pointer.
  datatype Link = Unlinked | On(l: ListId)

  // The thread's own timer: disarmed, or armed with one of its two callbacks.
  datatype Timer = Disarmed | DelayTimer | PendTimer

  datatype Error = EOK | ETIMEOUT | EBUSY | EDEADLK | EPERM | EINVAL | EFULL | EEMPTY | ERROR

  // What thread->error holds when a wait is over.
  type Ending = e: Error | e == EOK || e == ETIMEOUT witness EOK

  // Where the thread's own code stands: between calls, or inside one, behind its nd_scheduler().
  datatype Pc = Outside | Inside(call: Call)

  datatype Tcb = Tcb(
    stat: Stat, prio: nat, init: nat, yielding: bool, essential: bool,
    error: Ending, qnode: Link, timer: Timer, pc: Pc,
    mask: set<nat>, every: bool,
    cut: bool, ticket: nat, begun: nat, ended: nat)

  datatype Core = Core(
    tcb: map<Tid, Tcb>, lists: map<ListId, seq<Tid>>, bits: Word,
    cur: Tid, idle: Tid, nest: nat, asked: bool, tickets: nat)

  // The wait list of a blocking call.
  function WaitList(c: Call): ListId
    requires !c.DelayFor?
  {
    match c
    case TakeSem(s, _) => SemList(s)
    case LockMutex(m, _) => MutexList(m)
    case SendQueue(q, _, _) => SendList(q)
    case RecvQueue(q, _) => RecvList(q)
    case AllocPool(p, _) => PoolList(p)
    case RecvEvent(e, _) => EventList(e)
    case JoinThread(t, _) => JoinList(t)
  }

  function Q(k: Core, l: ListId): seq<Tid> {
    if l in k.lists then k.lists[l] else []
  }

  // ----- Sequences without repeats

  ghost predicate NoDup(s: seq<Tid>) {
    forall i, j | 0 <= i < j < |s| :: s[i] != s[j]
  }

  // s without t.
  function Minus(s: seq<Tid>, t: Tid): (r: seq<Tid>)
    ensures |s| - 1 <= |r| <= |s|
  {
    if s == [] then [] else if s[0] == t then s[1..] else [s[0]] + Minus(s[1..], t)
  }

  lemma {:induction false} MinusAt(s: seq<Tid>, i: nat)
    requires NoDup(s) && i < |s|
    ensures Minus(s, s[i]) == s[..i] + s[i + 1..]
  {
    if i > 0 {
      var r := s[1..];
      assert NoDup(r) by {
        forall a, b | 0 <= a < b < |r| ensures r[a] != r[b] { assert r[a] == s[a + 1] && r[b] == s[b + 1]; }
      }
      MinusAt(r, i - 1);
      assert r[i - 1] == s[i] && s[0] != s[i];
      assert r[i..] == s[i + 1..];
      assert s[..i] == [s[0]] + r[..i - 1];
    }
  }

  lemma MinusMembers(s: seq<Tid>, t: Tid)
    requires NoDup(s) && t in s
    ensures NoDup(Minus(s, t)) && forall x :: x in Minus(s, t) <==> x in s && x != t
  {
    var i :| 0 <= i < |s| && s[i] == t;
    MinusAt(s, i);
  }

  function Insert(s: seq<Tid>, i: nat, t: Tid): seq<Tid>
    requires i <= |s|
  {
    s[..i] + [t] + s[i..]
  }

  // ----- Control blocks

  const NoThread: Tcb := Tcb(Dead, 0, 0, false, false, EOK, Unlinked, Disarmed, Outside, {}, false, false, 0, 0, 0)

  function T(k: Core, t: Tid): Tcb {
    if t in k.tcb then k.tcb[t] else NoThread
  }

  function Put(k: Core, t: Tid, c: Tcb): Core {
    k.(tcb := k.tcb[t := c])
  }

  // ----- Linking

  ghost predicate ListOk(k: Core, l: ListId) {
    && NoDup(Q(k, l))
    && forall t | t in Q(k, l) :: t in k.tcb && T(k, t).qnode == On(l)
  }

  ghost predicate NodeOk(k: Core, t: Tid) {
    T(k, t).qnode.On? ==> t in Q(k, T(k, t).qnode.l)
  }

  // Every thread is on exactly the list its qnode is linked into, once.
  ghost predicate Linked(k: Core) {
    && (forall l {:trigger ListOk(k, l)} :: ListOk(k, l))
    && (forall t {:trigger NodeOk(k, t)} :: NodeOk(k, t))
  }

  // nd_list_remove on a thread's qnode
  function Unlink(k: Core, t: Tid): Core {
    if T(k, t).qnode.Unlinked? then k
    else
      var l := T(k, t).qnode.l;
      Put(k.(lists := k.lists[l := Minus(Q(k, l), t)]), t, T(k, t).(qnode := Unlinked))
  }

  // A thread is linked into list l at position i.
  function LinkAt(k: Core, t: Tid, l: ListId, i: nat): Core
    requires i <= |Q(k, l)|
  {
    Put(k.(lists := k.lists[l := Insert(Q(k, l), i, t)]), t, T(k, t).(qnode := On(l)))
  }

  lemma UnlinkLinked(k: Core, t: Tid)
    requires Linked(k) && t in k.tcb
    ensures Linked(Unlink(k, t))
  {
    if T(k, t).qnode.On? {
      var k', l := Unlink(k, t), T(k, t).qnode.l;
      assert NodeOk(k, t) && ListOk(k, l);
      MinusMembers(Q(k, l), t);
      forall m ensures ListOk(k', m) {
        assert ListOk(k, m);
      }
      forall x ensures NodeOk(k', x) {
        assert NodeOk(k, x);
      }
    }
  }

  lemma LinkLinked(k: Core, t: Tid, l: ListId, i: nat)
    requires Linked(k) && t in k.tcb && T(k, t).qnode.Unlinked? && i <= |Q(k, l)|
    ensures Linked(LinkAt(k, t, l, i)) && forall x :: x in Q(LinkAt(k, t, l, i), l) <==> x in Q(k, l) || x == t
  {
    var k' := LinkAt(k, t, l, i);
    assert ListOk(k, l);
    assert t !in Q(k, l);
    InsertMembers(Q(k, l), i, t);
    forall m ensures ListOk(k', m) {
      assert ListOk(k, m);
    }
    forall x ensures NodeOk(k', x) {
      assert NodeOk(k, x);
    }
  }

  lemma InsertMembers(s: seq<Tid>, i: nat, t: Tid)
    requires i <= |s| && t !in s && NoDup(s)
    ensures NoDup(Insert(s, i, t)) && forall x :: x in Insert(s, i, t) <==> x in s || x == t
  {
    assert Insert(s, i, t)[i] == t;
    assert s == s[..i] + s[i..];
  }

  // Changing other fields of a control block keeps the lists.
  lemma PutLinked(k: Core, t: Tid, c: Tcb)
    requires Linked(k) && c.qnode == T(k, t).qnode && t in k.tcb
    ensures Linked(Put(k, t, c))
  {
    var k' := Put(k, t, c);
    forall m ensures ListOk(k', m) { assert ListOk(k, m); }
    forall x ensures NodeOk(k', x) { assert NodeOk(k, x); }
  }

  // ----- Ready lists and their bitmap

  ghost predicate BitOk(k: Core, p: nat)
    requires p < PRIOS
  {
    k.bits[p] <==> Q(k, ReadyList(p)) != []
  }

  // Bit p is set exactly when ready list p is not empty.
  ghost predicate BitsOk(k: Core) {
    forall p {:trigger BitOk(k, p)} | 0 <= p < PRIOS :: BitOk(k, p)
  }

  // nd_thread_ready_add_tail
  function AddTail(k: Core, t: Tid): Core {
    var p := T(k, t).prio;
    if p >= PRIOS then k else LinkAt(k, t, ReadyList(p), |Q(k, ReadyList(p))|).(bits := k.bits[p := true])
  }

  // nd_thread_ready_add_head
  function AddHead(k: Core, t: Tid): Core {
    var p := T(k, t).prio;
    if p >= PRIOS then k else LinkAt(k, t, ReadyList(p), 0).(bits := k.bits[p := true])
  }

  // nd_thread_ready_remove
  function ReadyRemove(k: Core, t: Tid): Core {
    var p := T(k, t).prio;
    if p >= PRIOS then k
    else
      var k' := Unlink(k, t);
      if Q(k', ReadyList(p)) == [] then k'.(bits := k'.bits[p := false]) else k'
  }

  // ----- What a control block may look like

  // The status dictates the list; the timer is armed in a blocking wait only, with the callback of that wait.
  ghost predicate ThreadOk(c: Tcb) {
    && c.prio <= c.init < PRIOS && Patient(c)
    && c.begun == c.ended + (if c.stat == Block then 1 else 0)
    && match c.stat
       case Ready => c.qnode == On(ReadyList(c.prio)) && c.timer == Disarmed
       case Block => Waiting(c)
       case _ => c.qnode == Unlinked && c.timer == Disarmed
  }

  // Only a call that is willing to wait gets behind its nd_scheduler().
  ghost predicate Patient(c: Tcb) { c.pc.Inside? && !c.pc.call.DelayFor? ==> !c.pc.call.timeout.NoWait? }

  ghost predicate Waiting(c: Tcb) {
    && c.pc.Inside?
    && if c.pc.call.DelayFor? then c.qnode == Unlinked && c.timer == DelayTimer
       else
         && c.qnode == On(WaitList(c.pc.call)) && !c.pc.call.timeout.NoWait? && !c.cut && c.error == EOK
         && c.timer == if c.pc.call.timeout.Forever? then Disarmed else PendTimer
  }

  ghost predicate IdleOk(c: Tcb) {
    (c.stat == Ready || c.stat == Running) && c.pc == Outside && c.essential
  }

  // All threads but t are in order, and t is on no list.
  ghost predicate Loose(k: Core, t: Tid) {
    && Linked(k) && BitsOk(k) && t in k.tcb && T(k, t).qnode == Unlinked && k.cur in k.tcb && k.idle in k.tcb
    && (forall x {:trigger T(k, x)} | x in k.tcb && x != t :: ThreadOk(T(k, x)) && (T(k, x).stat == Running ==> x == k.cur))
    && (t != k.idle ==> IdleOk(T(k, k.idle)))
  }

  // Every thread is where its status says, at most the current one is running, and the idle thread can run.
  ghost predicate Whole(k: Core) {
    && Linked(k) && BitsOk(k) && k.cur in k.tcb && k.idle in k.tcb
    && (forall x {:trigger T(k, x)} | x in k.tcb :: ThreadOk(T(k, x)) && (T(k, x).stat == Running ==> x == k.cur))
    && IdleOk(T(k, k.idle))
  }

  lemma Loosen(k: Core, t: Tid)
    requires Whole(k) && t in k.tcb && T(k, t).qnode == Unlinked
    ensures Loose(k, t)
  {
  }

  lemma LooseUnlink(k: Core, t: Tid)
    requires Whole(k) && t in k.tcb && T(k, t).stat == Block
    ensures Loose(Unlink(k, t), t)
  {
    var k' := Unlink(k, t);
    UnlinkLinked(k, t);
    forall p | 0 <= p < PRIOS ensures BitOk(k', p) { assert BitOk(k, p); }
    assert forall x | x != t :: T(k', x) == T(k, x);
  }

  lemma LooseRemove(k: Core, t: Tid)
    requires Whole(k) && t in k.tcb && T(k, t).stat == Ready
    ensures Loose(ReadyRemove(k, t), t) && T(ReadyRemove(k, t), t) == T(k, t).(qnode := Unlinked)
  {
    var k', u := ReadyRemove(k, t), Unlink(k, t);
    UnlinkLinked(k, t);
    forall l ensures ListOk(k', l) { assert ListOk(u, l); }
    forall x ensures NodeOk(k', x) { assert NodeOk(u, x); }
    forall p | 0 <= p < PRIOS ensures BitOk(k', p) { assert BitOk(k, p); }
    assert forall x | x != t :: T(k', x) == T(k, x);
  }

  lemma LoosePut(k: Core, t: Tid, c: Tcb)
    requires Loose(k, t) && c.qnode == Unlinked
    ensures Loose(Put(k, t, c), t)
  {
    var k' := Put(k, t, c);
    PutLinked(k, t, c);
    forall p | 0 <= p < PRIOS ensures BitOk(k', p) { assert BitOk(k, p); }
    assert forall x | x != t :: T(k', x) == T(k, x);
  }

  // A thread on no list that looks right makes the kernel whole.
  lemma Tighten(k: Core, t: Tid)
    requires Loose(k, t) && ThreadOk(T(k, t)) && (T(k, t).stat == Running ==> t == k.cur) && (t == k.idle ==> IdleOk(T(k, t)))
    ensures Whole(k)
  {
  }

  lemma TightenReady(k: Core, t: Tid)
    requires Loose(k, t) && T(k, t).stat == Ready && T(k, t).timer == Disarmed && T(k, t).prio <= T(k, t).init < PRIOS
    requires T(k, t).begun == T(k, t).ended && Patient(T(k, t))
    requires t == k.idle ==> IdleOk(T(k, t))
    ensures Whole(AddTail(k, t)) && Whole(AddHead(k, t))
  {
    var p := T(k, t).prio;
    AddedWhole(k, t, AddTail(k, t), |Q(k, ReadyList(p))|);
    AddedWhole(k, t, AddHead(k, t), 0);
  }

  lemma AddedWhole(k: Core, t: Tid, k': Core, i: nat)
    requires Loose(k, t) && T(k, t).stat == Ready && T(k, t).timer == Disarmed && T(k, t).prio <= T(k, t).init < PRIOS
    requires T(k, t).begun == T(k, t).ended && Patient(T(k, t))
    requires t == k.idle ==> IdleOk(T(k, t))
    requires var p := T(k, t).prio; i <= |Q(k, ReadyList(p))| && k' == LinkAt(k, t, ReadyList(p), i).(bits := k.bits[p := true])
    ensures Whole(k')
  {
    var u, l := LinkAt(k, t, ReadyList(T(k, t).prio), i), ReadyList(T(k, t).prio);
    LinkLinked(k, t, l, i);
    forall m ensures ListOk(k', m) { assert ListOk(u, m); }
    forall x ensures NodeOk(k', x) { assert NodeOk(u, x); }
    assert t in Q(k', l);
    forall q | 0 <= q < PRIOS ensures BitOk(k', q) { assert BitOk(k, q); }
    assert forall x | x != t :: T(k', x) == T(k, x);
  }

  lemma TightenWait(k: Core, t: Tid, i: nat)
    requires Loose(k, t) && T(k, t).stat == Block && T(k, t).pc.Inside? && !T(k, t).pc.call.DelayFor? && t != k.idle
    requires i <= |Q(k, WaitList(T(k, t).pc.call))|
    requires var l := WaitList(T(k, t).pc.call); ThreadOk(T(k, t).(qnode := On(l)))
    ensures Whole(LinkAt(k, t, WaitList(T(k, t).pc.call), i))
  {
    var l := WaitList(T(k, t).pc.call);
    var k' := LinkAt(k, t, l, i);
    LinkLinked(k, t, l, i);
    forall q | 0 <= q < PRIOS ensures BitOk(k', q) { assert BitOk(k, q); }
    assert forall x | x != t :: T(k', x) == T(k, x);
  }

  // ----- Scheduler

  datatype Next = Nobody | Next(t: Tid)

  // nd_get_highest_priority_thread
  function Highest(k: Core): Next {
    var p := Ffs(k.bits);
    if p == 0 || Q(k, ReadyList(p - 1)) == [] then Nobody else Next(Q(k, ReadyList(p - 1))[0])
  }

  lemma HighestOk(k: Core)
    requires Whole(k)
    ensures Highest(k).Nobody? ==> forall x | x in k.tcb :: T(k, x).stat != Ready
    ensures Highest(k).Next? ==>
      var n := Highest(k).t;
      && n in k.tcb && T(k, n).stat == Ready && Q(k, ReadyList(T(k, n).prio)) != [] && Q(k, ReadyList(T(k, n).prio))[0] == n
      && forall x | x in k.tcb && T(k, x).stat == Ready :: T(k, n).prio <= T(k, x).prio
  {
    var p := Ffs(k.bits);
    forall x | x in k.tcb && T(k, x).stat == Ready ensures p != 0 && p - 1 <= T(k, x).prio {
      assert NodeOk(k, x) && BitOk(k, T(k, x).prio);
    }
    if p != 0 {
      assert BitOk(k, p - 1) && ListOk(k, ReadyList(p - 1));
      assert Q(k, ReadyList(p - 1))[0] in k.tcb;
    }
  }

  // nd_should_switch
  function ShouldSwitch(k: Core, n: Tid): bool {
    T(k, n).prio < T(k, k.cur).prio || (T(k, n).prio == T(k, k.cur).prio && T(k, k.cur).yielding) || T(k, k.cur).stat != Running
  }

  // The current thread, still running, makes room for n.
  function GiveWay(k: Core, n: Tid): Core {
    var c := T(k, k.cur);
    var higher := T(k, n).prio < c.prio;
    var d := c.(yielding := c.yielding && (higher || T(k, n).prio != c.prio));
    if c.stat != Running then Put(k, k.cur, d)
    else if higher then AddHead(Put(k, k.cur, d.(stat := Ready)), k.cur)
    else AddTail(Put(k, k.cur, d.(stat := Ready)), k.cur)
  }

  // nd_schedule_pick_next, with the state it leaves
  function PickNext(k: Core): (Core, Next) {
    match Highest(k)
    case Nobody => (k, Nobody)
    case Next(n) => if ShouldSwitch(k, n) then (GiveWay(k, n), Next(n)) else (k, Nobody)
  }

  // nd_context_switch_cb
  function ContextSwitch(k: Core, n: Tid): Core {
    var k1 := ReadyRemove(k, n);
    Put(k1, n, T(k1, n).(stat := Running)).(cur := n)
  }

  // nd_schedule_core
  function ScheduleCore(k: Core): Core {
    match PickNext(k)
    case (k1, Nobody) => k1
    case (k1, Next(n)) => ContextSwitch(k1, n)
  }

  // nd_scheduler
  function Schedule(k: Core): Core {
    if k.nest > 0 then k.(asked := true) else ScheduleCore(k)
  }

  ghost predicate Runnable(c: Tcb) { c.stat == Ready || c.stat == Running }

  // Scheduling may turn a ready thread into the running one and back, and nothing else.
  ghost predicate Alike(c: Tcb, d: Tcb) {
    && d == c.(stat := d.stat, qnode := d.qnode, yielding := d.yielding)
    && ((d.stat == c.stat && d.qnode == c.qnode) || (Runnable(c) && Runnable(d)))
  }

  ghost predicate SameSide(k: Core, k': Core) {
    && k'.tcb.Keys == k.tcb.Keys && k'.idle == k.idle && k'.nest == k.nest && k'.tickets == k.tickets
    && (forall x {:trigger T(k', x)} :: Alike(T(k, x), T(k', x)))
    && (forall l: ListId {:trigger Q(k', l)} :: !l.ReadyList? ==> Q(k', l) == Q(k, l))
  }

  // The current thread runs, and no ready thread is more urgent.
  ghost predicate Optimal(k: Core) {
    && k.cur in k.tcb && T(k, k.cur).stat == Running
    && forall x {:trigger T(k, x)} | x in k.tcb && T(k, x).stat == Ready :: T(k, k.cur).prio <= T(k, x).prio
  }

  // Only thread t, and lists of ready threads, differ.
  ghost predicate OnlyReady(k: Core, k': Core, t: Tid) {
    && k'.tcb.Keys == k.tcb.Keys && k'.cur == k.cur && k'.idle == k.idle && k'.nest == k.nest && k'.asked == k.asked && k'.tickets == k.tickets
    && (forall x {:trigger T(k', x)} :: x != t ==> T(k', x) == T(k, x))
    && (forall l: ListId {:trigger Q(k', l)} :: !l.ReadyList? ==> Q(k', l) == Q(k, l))
  }

  lemma AddOnly(k: Core, t: Tid)
    requires t in k.tcb
    ensures OnlyReady(k, AddTail(k, t), t) && OnlyReady(k, AddHead(k, t), t)
    ensures T(k, t).prio < PRIOS ==> T(AddTail(k, t), t) == T(k, t).(qnode := On(ReadyList(T(k, t).prio))) == T(AddHead(k, t), t)
  {
  }

  lemma RemoveOnly(k: Core, t: Tid)
    requires t in k.tcb && T(k, t).qnode == On(ReadyList(T(k, t).prio)) && T(k, t).prio < PRIOS
    ensures OnlyReady(k, ReadyRemove(k, t), t) && T(ReadyRemove(k, t), t) == T(k, t).(qnode := Unlinked)
  {
  }

  lemma PutOnly(k: Core, t: Tid, c: Tcb)
    requires t in k.tcb
    ensures OnlyReady(k, Put(k, t, c), t) && T(Put(k, t, c), t) == c
  {
  }

  lemma OnlyThen(k: Core, k1: Core, k2: Core, t: Tid)
    requires OnlyReady(k, k1, t) && OnlyReady(k1, k2, t)
    ensures OnlyReady(k, k2, t)
  {
    forall x | x != t ensures T(k2, x) == T(k, x) { assert T(k1, x) == T(k, x); }
    forall l: ListId | !l.ReadyList? ensures Q(k2, l) == Q(k, l) { assert Q(k1, l) == Q(k, l); }
  }

  lemma GiveWayOk(k: Core, n: Tid)
    requires Whole(k) && n in k.tcb && T(k, n).stat == Ready
    ensures var k' := GiveWay(k, n);
      Whole(k') && OnlyReady(k, k', k.cur) && Alike(T(k, k.cur), T(k', k.cur)) && T(k', k.cur).stat != Running && T(k', n).stat == Ready
  {
    hide Linked, BitsOk, AddTail, AddHead, ThreadOk;
    var c := T(k, k.cur);
    var d := c.(yielding := c.yielding && (T(k, n).prio < c.prio || T(k, n).prio != c.prio));
    if c.stat == Running {
      StopRunning(k, d.(stat := Ready));
    } else {
      PutWhole(k, k.cur, d);
      PutOnly(k, k.cur, d);
    }
  }

  lemma StopRunning(k: Core, d: Tcb)
    requires Whole(k) && T(k, k.cur).stat == Running && d == T(k, k.cur).(stat := Ready, yielding := d.yielding)
    ensures var (k1, k2) := (AddTail(Put(k, k.cur, d), k.cur), AddHead(Put(k, k.cur, d), k.cur));
      && Whole(k1) && OnlyReady(k, k1, k.cur) && Alike(T(k, k.cur), T(k1, k.cur)) && T(k1, k.cur).stat == Ready
      && Whole(k2) && OnlyReady(k, k2, k.cur) && Alike(T(k, k.cur), T(k2, k.cur)) && T(k2, k.cur).stat == Ready
  {
    hide Linked, BitsOk, AddTail, AddHead, OnlyReady, Put;
    var k0 := Put(k, k.cur, d);
    assert d.stat == Ready && d.timer == Disarmed && d.prio <= d.init < PRIOS && d.qnode == Unlinked;
    Loosen(k, k.cur);
    LoosePut(k, k.cur, d);
    PutOnly(k, k.cur, d);
    TightenReady(k0, k.cur);
    AddOnly(k0, k.cur);
    OnlyThen(k, k0, AddTail(k0, k.cur), k.cur);
    OnlyThen(k, k0, AddHead(k0, k.cur), k.cur);
  }

  // Fields outside the invariant.
  lemma PutWhole(k: Core, t: Tid, c: Tcb)
    requires Whole(k) && t in k.tcb
    requires var d := T(k, t);
      c.cut == d.cut && c.error == d.error && c.begun == d.begun && c.ended == d.ended && c.stat == d.stat
      && c.qnode == d.qnode && c.timer == d.timer && c.prio == d.prio && c.init == d.init && c.pc == d.pc && c.essential == d.essential
    ensures Whole(Put(k, t, c))
  {
    var k' := Put(k, t, c);
    PutLinked(k, t, c);
    forall p | 0 <= p < PRIOS ensures BitOk(k', p) { assert BitOk(k, p); }
    assert forall x | x != t :: T(k', x) == T(k, x);
  }

  lemma SwitchOk(k: Core, n: Tid)
    requires Whole(k) && n in k.tcb && T(k, n).stat == Ready && T(k, k.cur).stat != Running
    ensures var k' := ContextSwitch(k, n);
      Whole(k') && SameSide(k, k') && k'.cur == n && T(k', n) == T(k, n).(stat := Running, qnode := Unlinked) && k'.asked == k.asked
      && forall x | x != n :: T(k', x) == T(k, x)
  {
    hide Linked, BitsOk, ReadyRemove, Put, OnlyReady, SameSide, ContextSwitch;
    LooseRemove(k, n);
    var k1 := ReadyRemove(k, n);
    var d := T(k1, n).(stat := Running);
    LoosePut(k1, n, d);
    PutOnly(k1, n, d);
    var k2 := Put(k1, n, d);
    SwitchFields(k, n);
    SwitchSteps(k, n);
    RecurLoose(k2, n);
    assert forall x :: T(k2.(cur := n), x) == T(k2, x);
    Tighten(k2.(cur := n), n);
  }

  lemma SwitchSteps(k: Core, n: Tid)
    ensures var k2 := Put(ReadyRemove(k, n), n, T(ReadyRemove(k, n), n).(stat := Running));
      k2.cur == k.cur && k2.idle == k.idle && ContextSwitch(k, n) == k2.(cur := n) && (n != k.cur ==> T(k2, k.cur) == T(k, k.cur))
  {
  }

  // What a switch changes, and what it leaves alone.
  lemma SwitchFields(k: Core, n: Tid)
    requires n in k.tcb && T(k, n).stat == Ready && T(k, n).qnode == On(ReadyList(T(k, n).prio)) && T(k, n).prio < PRIOS
    ensures var k' := ContextSwitch(k, n);
      SameSide(k, k') && k'.cur == n && T(k', n) == T(k, n).(stat := Running, qnode := Unlinked) && k'.asked == k.asked
      && forall x | x != n :: T(k', x) == T(k, x)
  {
    hide ReadyRemove;
    RemoveOnly(k, n);
    var k1, k' := ReadyRemove(k, n), ContextSwitch(k, n);
    forall l: ListId ensures Q(k', l) == Q(k1, l) { }
    forall x | x != n ensures T(k', x) == T(k1, x) { }
  }

  lemma RecurLoose(k: Core, n: Tid)
    requires Loose(k, n) && (k.cur == n || T(k, k.cur).stat != Running)
    ensures Loose(k.(cur := n), n)
  {
    var k' := k.(cur := n);
    assert forall x :: T(k', x) == T(k, x);
    forall l ensures ListOk(k', l) { assert ListOk(k, l); }
    forall x ensures NodeOk(k', x) { assert NodeOk(k, x); }
    forall p | 0 <= p < PRIOS ensures BitOk(k', p) { assert BitOk(k, p); }
  }

  // Outside an interrupt the scheduler leaves the most urgent thread running.
  lemma ScheduleCoreOk(k: Core)
    requires Whole(k)
    ensures var k' := ScheduleCore(k); Whole(k') && SameSide(k, k') && Optimal(k') && k'.asked == k.asked
  {
    hide Linked, BitsOk, Highest, GiveWay, ContextSwitch, ThreadOk;
    HighestOk(k);
    match Highest(k) {
      case Nobody =>
        assert T(k, k.idle).stat == Running;
      case Next(n) =>
        if ShouldSwitch(k, n) {
          GiveWayOk(k, n);
          SwitchOk(GiveWay(k, n), n);
        }
    }
  }

  lemma RemovedFrom(k: Core, n: Tid, l: ListId)
    requires n in k.tcb && T(k, n).qnode == On(ReadyList(T(k, n).prio)) && T(k, n).prio < PRIOS
    ensures Q(ContextSwitch(k, n), l) == if l == ReadyList(T(k, n).prio) then Minus(Q(k, l), n) else Q(k, l)
  {
  }

  lemma AddedTo(k: Core, t: Tid, d: Tcb)
    requires d.prio < PRIOS
    ensures var l := ReadyList(d.prio);
      Q(AddTail(Put(k, t, d), t), l) == Q(k, l) + [t] && Q(AddHead(Put(k, t, d), t), l) == [t] + Q(k, l)
  {
  }

  // A preempted thread goes to the head of its ready list, a rotated one behind its peers; the most urgent runs.
  lemma Placement(k: Core)
    requires Whole(k) && T(k, k.cur).stat == Running
    ensures var (k', c) := (ScheduleCore(k), T(k, k.cur));
      if Highest(k).Nobody? || !ShouldSwitch(k, Highest(k).t) then k' == k
      else
        var n, l := Highest(k).t, ReadyList(c.prio);
        && k'.cur == n && T(k', k.cur).stat == Ready
        && if T(k, n).prio < c.prio then Q(k', l) == [k.cur] + Q(k, l) else Q(k, l) + [k.cur] == [n] + Q(k', l)
  {
    hide Whole, Highest, ContextSwitch, GiveWay, SameSide, OnlyReady;
    HighestOk(k);
    if Highest(k).Next? && ShouldSwitch(k, Highest(k).t) {
      var n, k1 := Highest(k).t, GiveWay(k, Highest(k).t);
      GiveWayOk(k, n);
      WayMade(k, n);
      SwitchOk(k1, n);
      ReadyAt(k1, n);
      RemovedFrom(k1, n, ReadyList(T(k, k.cur).prio));
    }
  }

  // Thread t is first of its ready list, and no ready thread is more urgent.
  ghost predicate Leads(k: Core, t: Tid) {
    var q := Q(k, ReadyList(T(k, t).prio));
    && t in k.tcb && T(k, t).stat == Ready && q != [] && q[0] == t
    && forall x {:trigger T(k, x)} | x in k.tcb && T(k, x).stat == Ready :: T(k, t).prio <= T(k, x).prio
  }

  // The current thread keeps the processor: it runs, and every ready thread is less urgent, or no more urgent if it did not
  // offer to yield.
  ghost predicate Holds(k: Core) {
    var c := T(k, k.cur);
    && c.stat == Running
    && forall x {:trigger T(k, x)} | x in k.tcb && T(k, x).stat == Ready ::
         c.prio < T(k, x).prio || (c.prio == T(k, x).prio && !c.yielding)
  }

  // Either nothing changes, exactly if the current thread keeps the processor, or the first of the most urgent ready list
  // runs. A thread that gives way goes ahead of its peers if it was preempted, and behind them if it yields. Only a yield to a
  // peer, while nobody is more urgent, takes back the offer.
  lemma Dispatches(k: Core)
    requires Whole(k)
    ensures var (k', c, l) := (ScheduleCore(k), T(k, k.cur), ReadyList(T(k, k.cur).prio));
      if Holds(k) then k' == k
      else
        && Leads(k, k'.cur) && T(k', k'.cur).stat == Running
        && (c.stat == Running ==> Q(k', l) == if T(k, k'.cur).prio < c.prio then [k.cur] + Q(k, l) else Q(k, l)[1..] + [k.cur])
        && forall x {:trigger T(k', x)} :: T(k', x).yielding == (T(k, x).yielding && !(x == k.cur && T(k, k'.cur).prio == c.prio))
  {
    hide Whole, Highest, GiveWay, ContextSwitch;
    HighestOk(k);
    IdleReady(k);
    if !Holds(k) {
      Switched(k, Highest(k).t);
      if T(k, k.cur).stat == Running {
        Placement(k);
        var l := ReadyList(T(k, k.cur).prio);
        assert T(k, Highest(k).t).prio == T(k, k.cur).prio ==> Q(ScheduleCore(k), l) == (Q(k, l) + [k.cur])[1..] == Q(k, l)[1..] + [k.cur];
      }
    }
  }

  lemma Switched(k: Core, n: Tid)
    requires Whole(k) && n in k.tcb && T(k, n).stat == Ready
    ensures var k' := ContextSwitch(GiveWay(k, n), n);
      && k'.cur == n && T(k', n).stat == Running
      && forall x {:trigger T(k', x)} :: T(k', x).yielding == (T(k, x).yielding && !(x == k.cur && T(k, n).prio == T(k, k.cur).prio))
  {
    hide Whole, GiveWay, ContextSwitch, SameSide;
    GiveWayOk(k, n);
    var k1 := GiveWay(k, n);
    var k' := ContextSwitch(k1, n);
    SwitchOk(k1, n);
    forall x ensures T(k', x).yielding == (T(k, x).yielding && !(x == k.cur && T(k, n).prio == T(k, k.cur).prio)) {
      assert T(k', x).yielding == T(k1, x).yielding;
      YieldedAt(k, n, x);
    }
  }

  // Somebody is ready when the current thread does not run or is outranked.
  lemma IdleReady(k: Core)
    requires Whole(k)
    ensures T(k, k.cur).stat != Running ==> T(k, k.idle).stat == Ready && k.idle in k.tcb
  {
  }

  lemma YieldedAt(k: Core, n: Tid, x: Tid)
    ensures T(GiveWay(k, n), x).yielding == (T(k, x).yielding && !(x == k.cur && T(k, n).prio == T(k, k.cur).prio))
  {
    hide AddTail, AddHead;
    var c := T(k, k.cur);
    var d := c.(yielding := c.yielding && (T(k, n).prio < c.prio || T(k, n).prio != c.prio));
    AddedYields(Put(k, k.cur, d.(stat := Ready)), k.cur, x);
  }

  lemma AddedYields(k: Core, t: Tid, x: Tid)
    ensures T(AddTail(k, t), x).yielding == T(k, x).yielding && T(AddHead(k, t), x).yielding == T(k, x).yielding
  {
  }

  lemma ReadyAt(k: Core, t: Tid)
    requires Whole(k) && t in k.tcb && T(k, t).stat == Ready
    ensures T(k, t).qnode == On(ReadyList(T(k, t).prio)) && T(k, t).prio < PRIOS
  {
  }

  lemma WayMade(k: Core, n: Tid)
    requires Whole(k) && T(k, k.cur).stat == Running && n in k.tcb && T(k, n).stat == Ready
    ensures var (k', c, l) := (GiveWay(k, n), T(k, k.cur), ReadyList(T(k, k.cur).prio));
      && T(k', n) == T(k, n) && T(k', k.cur).stat == Ready && k'.tcb.Keys == k.tcb.Keys && k'.cur == k.cur
      && Q(k', l) == if T(k, n).prio < c.prio then [k.cur] + Q(k, l) else Q(k, l) + [k.cur]
  {
    hide Linked, BitsOk, AddTail, AddHead;
    var c := T(k, k.cur);
    GiveWayOk(k, n);
    AddedTo(k, k.cur, c.(yielding := c.yielding && (T(k, n).prio < c.prio || T(k, n).prio != c.prio), stat := Ready));
  }

  // ----- Blocking and waking

  // Behind every waiter that is at least as urgent.
  function WaitPos(k: Core, q: seq<Tid>, prio: nat): (i: nat)
    ensures i <= |q|
  {
    if q == [] || T(k, q[0]).prio > prio then 0 else 1 + WaitPos(k, q[1..], prio)
  }

  // nd_thread_pend on the current thread
  function Pend(k: Core, call: Call): Core
    requires !call.DelayFor?
  {
    var (c, l) := (T(k, k.cur), WaitList(call));
    var d := PendBlock(c, call, k.tickets);
    LinkAt(Put(k, k.cur, d).(tickets := k.tickets + 1), k.cur, l, WaitPos(k, Q(k, l), c.prio))
  }

  // The current thread starts to wait for its timer alone, as in nd_thread_delay.
  function DelayStart(k: Core, n: nat): Core {
    var c := T(k, k.cur);
    Put(k, k.cur, c.(stat := Block, timer := DelayTimer, pc := Inside(DelayFor(n)), begun := c.begun + 1))
  }

  // What ends a wait: wake-up, event, timeout and delay differ in the error they leave.
  function Awaken(k: Core, t: Tid, e: Ending): Core {
    var c := T(k, t);
    AddTail(Put(Unlink(k, t), t, c.(stat := Ready, error := e, timer := Disarmed, qnode := Unlinked, ended := c.ended + 1)), t)
  }

  // nd_thread_wakeup of every waiter in turn, as in nd_thread_halt
  function WakeAll(k: Core, l: ListId): Core
    decreases |Q(k, l)|
  {
    if Q(k, l) == [] then k
    else
      var k' := Awaken(k, Q(k, l)[0], EOK);
      if |Q(k', l)| < |Q(k, l)| then WakeAll(k', l) else k'
  }

  // A thread that stops for good or until resumed.
  function Retire(k: Core, t: Tid, s: Stat): Core {
    var c := T(k, t);
    var k1 := if c.stat == Ready then ReadyRemove(k, t) else Unlink(k, t);
    Put(k1, t, c.(stat := s, qnode := Unlinked, timer := if c.stat == Block || s == Dead then Disarmed else c.timer,
                  cut := c.cut || (c.stat == Block && s == Suspend), ended := c.ended + if c.stat == Block then 1 else 0))
  }

  // nd_thread_change_priority
  function ChangePrio(k: Core, t: Tid, p: nat): Core {
    if T(k, t).stat == Ready then
      var k1 := ReadyRemove(k, t);
      AddHead(Put(k1, t, T(k1, t).(prio := p)), t)
    else Put(k, t, T(k, t).(prio := p))
  }

  function NewThread(prio: nat, essential: bool): Tcb {
    Tcb(Ready, prio, prio, false, essential, EOK, Unlinked, Disarmed, Outside, {}, false, false, 0, 0, 0)
  }

  // nd_thread_create, up to its nd_scheduler()
  function Create(k: Core, t: Tid, prio: nat, essential: bool): Core {
    AddTail(Put(k, t, NewThread(prio, essential)), t)
  }

  // Only thread t and ready lists differ, and t has left its wait list.
  ghost predicate OnlyLeft(k: Core, k': Core, t: Tid) {
    && k'.tcb.Keys == k.tcb.Keys && k'.cur == k.cur && k'.idle == k.idle && k'.nest == k.nest && k'.asked == k.asked && k'.tickets == k.tickets
    && (forall x {:trigger T(k', x)} :: x != t ==> T(k', x) == T(k, x))
    && (forall l: ListId {:trigger Q(k', l)} :: !l.ReadyList? ==> Q(k', l) == if T(k, t).qnode == On(l) then Minus(Q(k, l), t) else Q(k, l))
  }

  lemma UnlinkOnly(k: Core, t: Tid)
    requires t in k.tcb
    ensures OnlyLeft(k, Unlink(k, t), t)
    ensures T(Unlink(k, t), t) == T(k, t).(qnode := Unlinked)
  {
  }

  lemma LeftThen(k: Core, k1: Core, k2: Core, t: Tid)
    requires OnlyLeft(k, k1, t) && OnlyReady(k1, k2, t)
    ensures OnlyLeft(k, k2, t)
  {
    forall x | x != t ensures T(k2, x) == T(k, x) { assert T(k1, x) == T(k, x); }
    forall l: ListId | !l.ReadyList? ensures Q(k2, l) == if T(k, t).qnode == On(l) then Minus(Q(k, l), t) else Q(k, l) {
      assert Q(k2, l) == Q(k1, l);
    }
  }

  lemma AwakenOk(k: Core, t: Tid, e: Ending)
    requires Whole(k) && t in k.tcb && T(k, t).stat == Block
    ensures var (k', c) := (Awaken(k, t, e), T(k, t));
      && Whole(k') && OnlyLeft(k, k', t)
      && T(k', t) == c.(stat := Ready, error := e, timer := Disarmed, qnode := On(ReadyList(c.prio)), ended := c.ended + 1)
  {
    hide Linked, BitsOk, Unlink, AddTail, Put, OnlyLeft, OnlyReady;
    var c, k1 := T(k, t), Unlink(k, t);
    var d := c.(stat := Ready, error := e, timer := Disarmed, qnode := Unlinked, ended := c.ended + 1);
    var k2 := Put(k1, t, d);
    LooseUnlink(k, t);
    UnlinkOnly(k, t);
    LoosePut(k1, t, d);
    PutOnly(k1, t, d);
    TightenReady(k2, t);
    AddOnly(k2, t);
    OnlyThen(k1, k2, AddTail(k2, t), t);
    LeftThen(k, k1, AddTail(k2, t), t);
  }

  lemma RetireOk(k: Core, t: Tid, s: Stat)
    requires Whole(k) && t in k.tcb && t != k.idle && (s == Suspend || s == Dead)
    ensures var (k', c) := (Retire(k, t, s), T(k, t));
      && Whole(k') && OnlyLeft(k, k', t)
      && T(k', t) == c.(stat := s, timer := Disarmed, qnode := Unlinked, cut := c.cut || (c.stat == Block && s == Suspend),
                        ended := c.ended + if c.stat == Block then 1 else 0)
  {
    hide Linked, BitsOk, Unlink, ReadyRemove, Put, OnlyLeft, OnlyReady, Loose;
    var c := T(k, t);
    var d := c.(stat := s, qnode := Unlinked, timer := Disarmed,
                cut := c.cut || (c.stat == Block && s == Suspend), ended := c.ended + if c.stat == Block then 1 else 0);
    var k1 := if c.stat == Ready then ReadyRemove(k, t) else Unlink(k, t);
    OffItsList(k, t);
    LoosePut(k1, t, d);
    PutOnly(k1, t, d);
    OffThen(k, k1, Put(k1, t, d), t);
    Tighten(Put(k1, t, d), t);
  }

  // A thread is taken off whatever list it is on.
  lemma OffItsList(k: Core, t: Tid)
    requires Whole(k) && t in k.tcb
    ensures var k1 := if T(k, t).stat == Ready then ReadyRemove(k, t) else Unlink(k, t); Loose(k1, t) && OnlyLeft(k, k1, t) && t in k1.tcb
  {
    hide Linked, BitsOk, Unlink, ReadyRemove, OnlyReady, Loose;
    UnlinkOnly(k, t);
    match T(k, t).stat
    case Ready =>
      LooseRemove(k, t);
      RemoveOnly(k, t);
      ReadyLeft(k, ReadyRemove(k, t), t);
    case Block =>
      LooseUnlink(k, t);
    case _ =>
      Loosen(k, t);
      UnlinkNothing(k, t);
  }

  lemma OffThen(k: Core, k1: Core, k2: Core, t: Tid)
    requires OnlyLeft(k, k1, t) && OnlyReady(k1, k2, t)
    ensures OnlyLeft(k, k2, t) && k2.cur == k.cur && k2.idle == k.idle
  {
    LeftThen(k, k1, k2, t);
  }

  lemma UnlinkNothing(k: Core, t: Tid)
    requires T(k, t).qnode == Unlinked
    ensures Unlink(k, t) == k
  {
  }

  lemma ReadyLeft(k: Core, k': Core, t: Tid)
    requires OnlyReady(k, k', t) && T(k, t).qnode.On? && T(k, t).qnode.l.ReadyList?
    ensures OnlyLeft(k, k', t)
  {
  }

  function PendBlock(c: Tcb, call: Call, ticket: nat): Tcb
    requires !call.DelayFor?
  {
    c.(stat := Block, error := EOK, timer := if call.timeout.Forever? then Disarmed else PendTimer,
       pc := Inside(call), cut := false, ticket := ticket, begun := c.begun + 1)
  }

  // The current thread, and the wait list it joined, are all that differ.
  ghost predicate Pended(k: Core, k': Core, call: Call)
    requires !call.DelayFor?
  {
    var (c, l) := (T(k, k.cur), WaitList(call));
    && k'.tcb.Keys == k.tcb.Keys && k'.tickets == k.tickets + 1
    && k'.cur == k.cur && k'.idle == k.idle && k'.nest == k.nest && k'.asked == k.asked
    && T(k', k.cur) == PendBlock(c, call, k.tickets).(qnode := On(l))
    && (forall x {:trigger T(k', x)} :: x != k.cur ==> T(k', x) == T(k, x))
    && (forall m: ListId {:trigger Q(k', m)} :: m != l ==> Q(k', m) == Q(k, m))
    && Q(k', l) == Insert(Q(k, l), WaitPos(k, Q(k, l), c.prio), k.cur)
  }

  lemma PendOnly(k: Core, call: Call)
    requires k.cur in k.tcb && !call.DelayFor?
    ensures Pended(k, Pend(k, call), call)
  {
  }

  lemma PendOk(k: Core, call: Call)
    requires Whole(k) && T(k, k.cur).stat == Running && k.cur != k.idle && !call.DelayFor? && !call.timeout.NoWait?
    ensures Whole(Pend(k, call)) && Pended(k, Pend(k, call), call)
  {
    hide Linked, BitsOk, Put, Pended, LinkAt;
    var l, d := WaitList(call), PendBlock(T(k, k.cur), call, k.tickets);
    PendOnly(k, call);
    Loosen(k, k.cur);
    LoosePut(k, k.cur, d);
    PutOnly(k, k.cur, d);
    TicketsLoose(Put(k, k.cur, d), k.cur, k.tickets + 1);
    PendWaiting(d, call);
    var k1 := Put(k, k.cur, d).(tickets := k.tickets + 1);
    assert T(k1, k.cur) == d;
    assert Q(k1, l) == Q(Put(k, k.cur, d), l) == Q(k, l);
    TightenWait(k1, k.cur, WaitPos(k, Q(k, l), T(k, k.cur).prio));
  }

  lemma PendWaiting(d: Tcb, call: Call)
    requires !call.DelayFor? && !call.timeout.NoWait? && d.pc == Inside(call) && d.stat == Block && !d.cut && d.error == EOK
    requires d.timer == (if call.timeout.Forever? then Disarmed else PendTimer) && d.prio <= d.init < PRIOS && d.begun == d.ended + 1
    ensures ThreadOk(d.(qnode := On(WaitList(call))))
  {
  }

  lemma TicketsLoose(k: Core, t: Tid, n: nat)
    requires Loose(k, t)
    ensures Loose(k.(tickets := n), t)
  {
    var k' := k.(tickets := n);
    assert forall x :: T(k', x) == T(k, x);
    forall l ensures ListOk(k', l) { assert ListOk(k, l); }
    forall x ensures NodeOk(k', x) { assert NodeOk(k, x); }
    forall p | 0 <= p < PRIOS ensures BitOk(k', p) { assert BitOk(k, p); }
  }

  lemma DelayStartOk(k: Core, n: nat)
    requires Whole(k) && T(k, k.cur).stat == Running && k.cur != k.idle
    ensures var k' := DelayStart(k, n); Whole(k') && OnlyReady(k, k', k.cur) && T(k', k.cur).stat == Block
  {
    hide Linked, BitsOk, OnlyReady, Put;
    var c := T(k, k.cur);
    var d := c.(stat := Block, timer := DelayTimer, pc := Inside(DelayFor(n)), begun := c.begun + 1);
    Loosen(k, k.cur);
    LoosePut(k, k.cur, d);
    PutOnly(k, k.cur, d);
    Tighten(Put(k, k.cur, d), k.cur);
  }

  lemma ResumeOk(k: Core, t: Tid)
    requires Whole(k) && t in k.tcb && T(k, t).stat == Suspend
    ensures var k' := AddTail(Put(k, t, T(k, t).(stat := Ready)), t);
      && Whole(k') && OnlyReady(k, k', t) && T(k', t) == T(k, t).(stat := Ready, qnode := On(ReadyList(T(k, t).prio)))
  {
    hide Linked, BitsOk, OnlyReady, Put, AddTail;
    var d := T(k, t).(stat := Ready);
    Loosen(k, t);
    LoosePut(k, t, d);
    PutOnly(k, t, d);
    TightenReady(Put(k, t, d), t);
    AddOnly(Put(k, t, d), t);
    OnlyThen(k, Put(k, t, d), AddTail(Put(k, t, d), t), t);
  }

  lemma ChangePrioOk(k: Core, t: Tid, p: nat)
    requires Whole(k) && t in k.tcb && p <= T(k, t).init
    ensures var k' := ChangePrio(k, t, p);
      && Whole(k') && OnlyReady(k, k', t)
      && T(k', t) == T(k, t).(prio := p, qnode := if T(k, t).stat == Ready then On(ReadyList(p)) else T(k, t).qnode)
  {
    hide Linked, BitsOk, OnlyReady, Put, AddHead, ReadyRemove;
    var c := T(k, t);
    if c.stat == Ready {
      var k1 := ReadyRemove(k, t);
      var d := T(k1, t).(prio := p);
      LooseRemove(k, t);
      RemoveOnly(k, t);
      LoosePut(k1, t, d);
      PutOnly(k1, t, d);
      TightenReady(Put(k1, t, d), t);
      AddOnly(Put(k1, t, d), t);
      OnlyThen(k, k1, Put(k1, t, d), t);
      OnlyThen(k, Put(k1, t, d), AddHead(Put(k1, t, d), t), t);
    } else {
      PutPrioOk(k, t, p);
      PutOnly(k, t, c.(prio := p));
    }
  }

  lemma PutPrioOk(k: Core, t: Tid, p: nat)
    requires Whole(k) && t in k.tcb && p <= T(k, t).init && T(k, t).stat != Ready
    ensures Whole(Put(k, t, T(k, t).(prio := p)))
  {
    var k' := Put(k, t, T(k, t).(prio := p));
    PutLinked(k, t, T(k, t).(prio := p));
    forall q | 0 <= q < PRIOS ensures BitOk(k', q) { assert BitOk(k, q); }
    assert forall x | x != t :: T(k', x) == T(k, x);
  }

  // A call is over: the thread's code goes on outside.
  lemma PutPcOk(k: Core, t: Tid)
    requires Whole(k) && t in k.tcb && T(k, t).stat != Block && t != k.idle
    ensures Whole(Put(k, t, T(k, t).(pc := Outside)))
  {
    var k' := Put(k, t, T(k, t).(pc := Outside));
    PutLinked(k, t, T(k, t).(pc := Outside));
    forall q | 0 <= q < PRIOS ensures BitOk(k', q) { assert BitOk(k, q); }
    assert forall x | x != t :: T(k', x) == T(k, x);
  }

  lemma CreateOk(k: Core, t: Tid, prio: nat, essential: bool)
    requires Whole(k) && t !in k.tcb && prio < PRIOS
    ensures var k' := Create(k, t, prio, essential);
      && Whole(k') && T(k', t) == NewThread(prio, essential).(qnode := On(ReadyList(prio))) && k'.tcb.Keys == k.tcb.Keys + {t}
      && (forall x {:trigger T(k', x)} :: x != t ==> T(k', x) == T(k, x))
      && (forall l: ListId {:trigger Q(k', l)} :: !l.ReadyList? ==> Q(k', l) == Q(k, l))
      && k'.cur == k.cur && k'.idle == k.idle && k'.nest == k.nest && k'.asked == k.asked && k'.tickets == k.tickets
  {
    var k1 := Put(k, t, NewThread(prio, essential));
    forall l ensures ListOk(k1, l) { assert ListOk(k, l); }
    forall x ensures NodeOk(k1, x) { assert NodeOk(k, x); }
    forall q | 0 <= q < PRIOS ensures BitOk(k1, q) { assert BitOk(k, q); }
    assert forall x | x != t :: T(k1, x) == T(k, x);
    TightenReady(k1, t);
  }

  lemma ScheduleOk(k: Core)
    requires Whole(k)
    ensures var k' := Schedule(k);
      && Whole(k') && SameSide(k, k') && (if k.nest > 0 then k'.asked && k'.cur == k.cur else Optimal(k') && k'.asked == k.asked)
  {
    if k.nest == 0 {
      ScheduleCoreOk(k);
    } else {
      FlagsWhole(k, true, k.nest);
    }
  }

  lemma FlagsWhole(k: Core, asked: bool, nest: nat)
    requires Whole(k)
    ensures Whole(k.(asked := asked, nest := nest))
  {
    var k' := k.(asked := asked, nest := nest);
    assert forall x :: T(k', x) == T(k, x);
    forall l ensures ListOk(k', l) { assert ListOk(k, l); }
    forall x ensures NodeOk(k', x) { assert NodeOk(k, x); }
    forall p | 0 <= p < PRIOS ensures BitOk(k', p) { assert BitOk(k, p); }
  }
}
