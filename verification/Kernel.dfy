// The kernel as it runs: its globals, control blocks and rings of nodes, and one method per C function, each equal to the
// step it is specified by.
module KernelMachine {
  import opened BitOps
  import opened KernelCore
  import opened Ipc
  import opened Runs
  import opened NdList
  import opened Rings

  // A control block in memory, but for its qnode.
  datatype Fields = Fields(
    stat: Stat, prio: nat, init: nat, yielding: bool, essential: bool,
    error: Ending, timer: Timer, pc: Pc,
    mask: set<nat>, every: bool,
    cut: bool, ticket: nat, begun: nat, ended: nat)

  function Bare(c: Tcb): Fields {
    Fields(c.stat, c.prio, c.init, c.yielding, c.essential, c.error, c.timer, c.pc, c.mask, c.every, c.cut, c.ticket, c.begun, c.ended)
  }

  function Full(f: Fields, l: Link): Tcb {
    Tcb(f.stat, f.prio, f.init, f.yielding, f.essential, f.error, l, f.timer, f.pc, f.mask, f.every, f.cut, f.ticket, f.begun, f.ended)
  }

  lemma WholeBits(k: Core)
    requires Whole(k)
    ensures BitsOk(k)
  {
  }

  // Fields may be set before or after unlinking.
  lemma FieldsFirst(k: Core, t: Tid, d: Tcb)
    requires t in k.tcb && d.qnode == T(k, t).qnode
    ensures Unlink(Put(k, t, d), t) == Put(Unlink(k, t), t, d.(qnode := Unlinked))
  {
    if d.qnode == Unlinked {
      assert d.(qnode := Unlinked) == d;
    }
  }

  lemma AwakenHeadWhole(k: Core, l: ListId)
    requires Whole(k) && Q(k, l) != [] && !l.ReadyList?
    ensures Whole(Awaken(k, Q(k, l)[0], EOK))
  {
    OnWait(k, Q(k, l)[0], l);
    AwakenOk(k, Q(k, l)[0], EOK);
  }

  lemma ReadyPlace(k: Core, t: Tid)
    requires Whole(k) && t in k.tcb && T(k, t).stat == Ready
    ensures T(k, t).qnode == On(ReadyList(T(k, t).prio)) && T(k, t).prio < PRIOS
  {
  }

  // The yield flag consumed first, then the rest of making way.
  lemma WayTaken(k: Core, n: Tid, k1: Core)
    requires Whole(k) && k1 == if T(k, n).prio == T(k, k.cur).prio && T(k, k.cur).yielding then Put(k, k.cur, T(k, k.cur).(yielding := false)) else k
    ensures var (t, d) := (k.cur, T(k1, k.cur).(stat := Ready));
      if T(k1, t).stat != Running then GiveWay(k, n) == k1
      else T(k1, t).qnode == Unlinked && GiveWay(k, n) == if T(k, n).prio < T(k, t).prio then AddHead(Put(k1, t, d), t) else AddTail(Put(k1, t, d), t)
  {
    hide Linked, BitsOk, AddHead, AddTail;
    assert ThreadOk(T(k, k.cur));
    assert Put(k, k.cur, T(k, k.cur)) == k;
    assert Put(k1, k.cur, T(k1, k.cur).(stat := Ready)) == Put(k, k.cur, T(k1, k.cur).(stat := Ready));
  }

  lemma Suspended(k: Core, t: Tid)
    requires Whole(k) && t in k.tcb && T(k, t).stat == Suspend
    ensures T(k, t).qnode == Unlinked
  {
  }

  lemma RemovedKeys(k: Core, t: Tid)
    requires t in k.tcb
    ensures ReadyRemove(k, t).tcb.Keys == k.tcb.Keys
  {
  }

  // A thread's qnode is unlinked by its removal from whatever list it is on.
  lemma UnlinkedKeys(k: Core, t: Tid)
    requires Whole(k) && t in k.tcb
    ensures Unlink(k, t).tcb.Keys == k.tcb.Keys && T(Unlink(k, t), t).qnode == Unlinked && (T(k, t).qnode == Unlinked ==> Unlink(k, t) == k)
    ensures T(k, t).stat == Ready ==> T(k, t).qnode.On? && T(ReadyRemove(k, t), t).qnode == Unlinked
  {
    if T(k, t).stat == Ready { LooseRemove(k, t); }
  }

  // The caller may be linked in before or after its fields are written.
  lemma PendFields(k: Core, call: Call)
    requires k.cur in k.tcb && !call.DelayFor?
    ensures var (c, l) := (T(k, k.cur), WaitList(call));
      var k1 := LinkAt(k, k.cur, l, WaitPos(k, Q(k, l), c.prio));
      && k1.tcb.Keys == k.tcb.Keys && T(k1, k.cur) == c.(qnode := On(l)) && k1.cur == k.cur && k1.tickets == k.tickets
      && Pend(k, call) == Put(k1, k.cur, PendBlock(c, call, k.tickets).(qnode := On(l))).(tickets := k.tickets + 1)
  {
    hide Insert, WaitPos, PendBlock;
    var c, l := T(k, k.cur), WaitList(call);
    LinkedThenPut(k, k.cur, l, WaitPos(k, Q(k, l), c.prio), PendBlock(c, call, k.tickets), k.tickets + 1);
  }

  lemma LinkedThenPut(k: Core, t: Tid, l: ListId, i: nat, d: Tcb, n: nat)
    requires t in k.tcb && i <= |Q(k, l)|
    ensures LinkAt(Put(k, t, d).(tickets := n), t, l, i) == Put(LinkAt(k, t, l, i), t, d.(qnode := On(l))).(tickets := n)
  {
    hide Insert;
  }

  // What suspension or abortion writes into a control block.
  function Stopped(c: Fields, st: Stat): Fields {
    c.(stat := st, timer := if c.stat == Stat.Block || st == Dead then Disarmed else c.timer,
       cut := c.cut || (c.stat == Stat.Block && st == Suspend), ended := c.ended + if c.stat == Stat.Block then 1 else 0)
  }

  lemma RetireSteps(k: Core, t: Tid, st: Stat)
    requires Whole(k) && t in k.tcb
    ensures var k1 := if T(k, t).stat == Ready then ReadyRemove(k, t) else if T(k, t).qnode.On? then Unlink(k, t) else k;
      && t in k1.tcb && T(k1, t).qnode == Unlinked && (T(k, t).stat == Ready ==> T(k, t).qnode.On?)
      && Retire(k, t, st) == Put(k1, t, Full(Stopped(Bare(T(k, t)), st), Unlinked))
  {
    hide Whole, Put, ReadyRemove, Unlink;
    UnlinkedKeys(k, t);
    RemovedKeys(k, t);
  }

  lemma MiddleOut(s: State, id: nat, kept: seq<Tid>, q: seq<Tid>, i: nat)
    requires i < |q| && Walking(s, id, q[i..]) && Q(s.k, EventList(id)) == kept + q[i..]
    ensures Minus(kept + q[i..], q[i]) == kept + q[i + 1..]
  {
    WaitersOnce(s.k, EventList(id));
    MinusAt(kept + q[i..], |kept|);
  }

  lemma RecvMayWait(s: State, id: nat, mask: set<nat>, every: bool, timeout: Timeout)
    requires Sound(s) && MayCall(s, timeout)
    ensures var s1 := s.(k := Put(s.k, s.k.cur, Cur(s).(mask := mask, every := every)));
      s.k.cur in s.k.tcb && (!timeout.NoWait? && !Satisfied(EventOf(s, id), mask, every) ==> Good(s1) && MayWait(s1, RecvEvent(id, timeout)))
  {
    hide Whole, ObjectsGood, MutexesGood, Satisfied, Urgent;
    CallingRuns(s);
    MaskSound(s, mask, every);
  }

  lemma AwakenSteps(k: Core, t: Tid, e: Ending, d: Tcb)
    requires t in k.tcb && d == T(k, t).(timer := Disarmed, error := e, stat := Ready, ended := T(k, t).ended + 1)
    ensures var k1 := Put(k, t, d);
      var k2 := if d.qnode.On? then Unlink(k1, t) else k1;
      t in k1.tcb && T(k1, t) == d && t in k2.tcb && T(k2, t).qnode == Unlinked && Awaken(k, t, e) == AddTail(k2, t)
  {
    FieldsFirst(k, t, d);
  }

  lemma TimerWakes(s: State, t: Tid)
    requires Sound(s) && t in s.k.tcb && T(s.k, t).timer != Disarmed
    ensures Whole(s.k) && T(s.k, t).stat == Stat.Block && forall e :: Whole(Awaken(s.k, t, e))
  {
    hide Linked, BitsOk, ObjectsGood, MutexesGood, Awaken;
    forall e ensures Whole(Awaken(s.k, t, e)) { AwakenOk(s.k, t, e); }
  }

  lemma OwnerKnown(s: State, id: nat, o: Tid)
    requires Good(s) && MutexOf(s, id).owner == Thread(o)
    ensures Whole(s.k) && o in s.k.tcb && s.k.cur in s.k.tcb
  {
    hide Linked, BitsOk;
    assert MutexGood(s, id);
  }

  lemma PendReady(s: State, call: Call)
    requires Good(s) && MayWait(s, call)
    ensures var k := s.k; !call.DelayFor? && k.cur in k.tcb && T(k, k.cur).qnode == Unlinked && Whole(Pend(k, call)) && forall x | x in Q(k, WaitList(call)) :: x in k.tcb
  {
    hide ObjectsGood, MutexesGood, BitsOk, Pend;
    PendOk(s.k, call);
    forall x | x in Q(s.k, WaitList(call)) ensures x in s.k.tcb { OnWait(s.k, x, WaitList(call)); }
  }

  lemma CreatedWhole(s: State, t: Tid, prio: nat, essential: bool)
    requires Sound(s) && t !in s.k.tcb && prio < PRIOS
    ensures Whole(Create(s.k, t, prio, essential))
  {
    hide Linked, BitsOk, ObjectsGood, MutexesGood, Create;
    CreateOk(s.k, t, prio, essential);
  }

  lemma SuspendWhole(k: Core, t: Tid)
    requires Whole(k) && t in k.tcb && t != k.idle
    ensures Whole(Retire(k, t, Suspend))
  {
    RetireOk(k, t, Suspend);
  }

  lemma WalkOver(s: State, id: nat)
    requires Walking(s, id, [])
    ensures Whole(s.k) && EventWalk(s, id, []) == s
  {
  }

  lemma VisitLeaves(s: State, id: nat, rest: seq<Tid>, e: Ending)
    requires Walking(s, id, rest) && rest != []
    ensures Q(Awaken(s.k, rest[0], e), EventList(id)) == Minus(Q(s.k, EventList(id)), rest[0])
  {
    OnWait(s.k, rest[0], EventList(id));
    AwakenOk(s.k, rest[0], e);
  }

  lemma SoundParts(s: State)
    requires Sound(s)
    ensures Whole(s.k)
  {
  }

  lemma VisitWait(s: State, id: nat, rest: seq<Tid>)
    requires Walking(s, id, rest) && rest != []
    ensures rest[0] in s.k.tcb && T(s.k, rest[0]).stat == Block && Whole(s.k)
  {
    OnWait(s.k, rest[0], EventList(id));
  }

  // The control blocks set up before the first dispatch.
  lemma FirstThreads(prio: nat, o: Setup)
    requires prio < PRIOS
    ensures var k0 := Put(Core(map[], map[], Zero, 1, 0, 0, false, 1), 0, NewThread(PRIOS - 1, true));
      var k1 := AddTail(k0, 0);
      && k0.tcb.Keys == {0} && T(k0, 0).qnode == Unlinked && k1.tcb.Keys == {0}
      && Boot(prio, o) == State(Put(k1, 1, NewThread(prio, false).(stat := Running)), o.sems, map[], map[], o.queues, o.pools, map[])
  {
    assert Insert([], 0, 0) == [0];
  }

  class Kernel {
    const rings: Queues
    var thread: map<Tid, Fields>
    // The control blocks with the list each is on.
    ghost var tcb: map<Tid, Tcb>
    var bits: Word
    var cur: Tid
    var idle: Tid
    var nest: nat
    var asked: bool
    var tickets: nat
    var sems: map<nat, Sem>
    var mutexes: map<nat, Mutex>
    var taken: map<Tid, seq<nat>>
    var queues: map<nat, Queue>
    var pools: map<nat, Pool>
    var events: map<nat, set<nat>>

    // What the memory stands for.
    ghost function K(): Core
      reads this, rings
    {
      Core(tcb, rings.lists, bits, cur, idle, nest, asked, tickets)
    }

    ghost function S(): State
      reads this, rings
    {
      State(K(), sems, mutexes, taken, queues, pools, events)
    }

    ghost function List(l: ListId): seq<Tid>
      reads this, rings
    {
      Q(K(), l)
    }

    ghost predicate Agrees(t: Tid)
      reads this`thread, this`tcb, rings
    {
      t in tcb ==> t in thread && t in rings.link && tcb[t] == Full(thread[t], rings.link[t])
    }

    // The rings are in order, and the control blocks say which ring each thread is in.
    ghost predicate Rep()
      reads this`thread, this`tcb, rings, rings.repr
    {
      && rings.Valid() && tcb.Keys == thread.Keys == rings.link.Keys
      && forall t {:trigger Agrees(t)} :: Agrees(t)
    }

    // The control block in memory.
    function Block(t: Tid): (f: Fields)
      requires Rep() && t in tcb
      reads this`thread, this`tcb, rings, rings.repr
      ensures f == Bare(tcb[t]) && tcb[t] == Full(f, rings.link[t])
    {
      assert Agrees(t);
      thread[t]
    }

    // Nodes stay where they are in memory.
    twostate predicate Stays()
      reads rings
    {
      && (forall t | t in old(rings.qnode) :: t in rings.qnode && rings.qnode[t] == old(rings.qnode[t]))
      && (forall l | l in old(rings.head) :: l in rings.head && rings.head[l] == old(rings.head[l]))
      && fresh(rings.repr - old(rings.repr))
    }

    // The kernel at its first dispatch: the idle thread is ready and thread 1 runs.
    constructor (prio: nat, o: Setup)
      requires prio < PRIOS
      ensures Rep() && S() == Boot(prio, o) && fresh(rings) && fresh(rings.repr)
    {
      hide Queues.Valid, Queues.Linked, AddTail, Put, Boot;
      rings := new Queues();
      thread, tcb, bits, cur, idle, nest, asked, tickets := map[], map[], Zero, 1, 0, 0, false, 1;
      sems, mutexes, taken, queues, pools, events := o.sems, map[], map[], o.queues, o.pools, map[];
      new;
      assert forall t :: Agrees(t);
      FirstThreads(prio, o);
      Begin(prio, o);
    }

    method Begin(prio: nat, ghost o: Setup)
      requires Rep() && prio < PRIOS && K() == Core(map[], map[], Zero, 1, 0, 0, false, 1)
      modifies this`thread, this`tcb, this`bits, rings, rings.repr
      ensures Rep() && Grown() && K() == Boot(prio, o).k
    {
      hide Queues.Valid, Queues.Linked, AddTail, Put, Boot, Rep;
      FirstThreads(prio, o);
      Enlist(0, Bare(NewThread(PRIOS - 1, true)));
      ReadyAddTail(0);
      Enlist(1, Bare(NewThread(prio, false).(stat := Running)));
    }

    // A control block for a new thread, on no list.
    method Enlist(t: Tid, f: Fields)
      requires Rep() && t !in tcb
      modifies this`thread, this`tcb, rings
      ensures Rep() && Stays() && K() == Put(old(K()), t, Full(f, Unlinked))
    {
      hide Queues.Valid;
      rings.Enrol(t);
      thread := thread[t := f];
      tcb := tcb[t := Full(f, Unlinked)];
      forall x ensures Agrees(x) { assert old(Agrees(x)); }
    }

    twostate predicate Grown()
      reads rings
    {
      fresh(rings.repr - old(rings.repr))
    }

    // Fields of a control block are written.
    method Set(t: Tid, f: Fields)
      requires Rep() && t in tcb
      modifies this`thread, this`tcb
      ensures Rep() && K() == Put(old(K()), t, Full(f, old(tcb[t].qnode)))
    {
      assert Agrees(t);
      thread := thread[t := f];
      tcb := tcb[t := Full(f, tcb[t].qnode)];
      forall x ensures Agrees(x) { assert old(Agrees(x)); }
    }

    // ----- Lists

    // nd_list_remove on a linked qnode
    method ListRemove(t: Tid)
      requires Rep() && t in tcb && tcb[t].qnode.On?
      modifies this`tcb, rings, rings.repr
      ensures Rep() && Stays() && K() == Unlink(old(K()), t)
    {
      hide Queues.Valid;
      assert Agrees(t);
      rings.Remove(t);
      tcb := tcb[t := tcb[t].(qnode := Unlinked)];
      forall x ensures Agrees(x) { assert old(Agrees(x)); }
    }

    // nd_list_insert_before on t's qnode, ahead of the node at place i of list l
    method LinkBefore(node: Node, t: Tid, ghost l: ListId, ghost i: nat)
      requires Rep() && t in tcb && tcb[t].qnode.Unlinked? && l in rings.head && rings.Linked(l) && i <= |rings.On(l)| && node == rings.At(l, i)
      modifies this`tcb, rings, rings.repr
      ensures Rep() && Stays() && K() == LinkAt(old(K()), t, l, i)
    {
      hide Queues.Valid, Queues.Linked;
      assert Agrees(t);
      rings.InsertBefore(node, t, l, i);
      tcb := tcb[t := tcb[t].(qnode := On(l))];
      forall x ensures Agrees(x) { assert old(Agrees(x)); }
    }

    // nd_list_insert_after on list l's head
    method LinkFirst(t: Tid, l: ListId)
      requires Rep() && t in tcb && tcb[t].qnode.Unlinked? && l in rings.head && rings.Linked(l)
      modifies this`tcb, rings, rings.repr
      ensures Rep() && Stays() && K() == LinkAt(old(K()), t, l, 0)
    {
      hide Queues.Valid, Queues.Linked;
      assert Agrees(t);
      rings.InsertFirst(t, l);
      tcb := tcb[t := tcb[t].(qnode := On(l))];
      forall x ensures Agrees(x) { assert old(Agrees(x)); }
    }

    method HeadNode(l: ListId) returns (h: Node)
      requires Rep()
      modifies rings
      ensures Rep() && Stays() && K() == old(K()) && l in rings.head && rings.Linked(l) && h == rings.head[l] == rings.At(l, |rings.On(l)|)
    {
      hide Queues.Valid, Queues.Linked;
      h := rings.HeadOf(l);
      forall x ensures Agrees(x) { assert old(Agrees(x)); }
    }

    method ReadyAddTail(t: Tid)
      requires Rep() && t in tcb && tcb[t].qnode.Unlinked?
      modifies this`tcb, this`bits, rings, rings.repr
      ensures Rep() && Stays() && K() == AddTail(old(K()), t)
    {
      hide Queues.Valid, Queues.Linked;
      var p := Block(t).prio;
      if p >= PRIOS {
        return;
      }
      var h := HeadNode(ReadyList(p));
      LinkBefore(h, t, ReadyList(p), |rings.On(ReadyList(p))|);
      bits := bits[p := true];
    }

    method ReadyAddHead(t: Tid)
      requires Rep() && t in tcb && tcb[t].qnode.Unlinked?
      modifies this`tcb, this`bits, rings, rings.repr
      ensures Rep() && Stays() && K() == AddHead(old(K()), t)
    {
      hide Queues.Valid, Queues.Linked;
      var p := Block(t).prio;
      if p >= PRIOS {
        return;
      }
      var h := HeadNode(ReadyList(p));
      LinkFirst(t, ReadyList(p));
      bits := bits[p := true];
    }

    method ReadyTakeOut(t: Tid)
      requires Rep() && t in tcb && tcb[t].qnode.On?
      modifies this`tcb, this`bits, rings, rings.repr
      ensures Rep() && Stays() && K() == ReadyRemove(old(K()), t)
    {
      hide Queues.Valid, Queues.Linked;
      var p := Block(t).prio;
      if p >= PRIOS {
        return;
      }
      ListRemove(t);
      var none := rings.IsEmpty(ReadyList(p));
      if none {
        bits := bits[p := false];
      }
    }

    // ----- Scheduler

    method GetHighest() returns (n: Next)
      requires Rep() && BitsOk(K())
      ensures n == Highest(K())
    {
      var p := Ffs(bits);
      if p == 0 {
        return Nobody;
      }
      assert BitOk(K(), p - 1);
      var t := rings.First(ReadyList(p - 1));
      n := Next(t);
    }

    // nd_should_switch; a rotation consumes the current thread's yield flag.
    method DecideSwitch(n: Tid) returns (ok: bool)
      requires Rep() && cur in tcb && n in tcb
      modifies this`thread, this`tcb
      ensures Rep() && ok == ShouldSwitch(old(K()), n)
      ensures var (k, c) := (old(K()), old(tcb[cur]));
        K() == if T(k, n).prio == c.prio && c.yielding then Put(k, cur, c.(yielding := false)) else k
    {
      hide Queues.Valid;
      if Block(n).prio < Block(cur).prio {
        return true;
      }
      if Block(n).prio == Block(cur).prio && Block(cur).yielding {
        Set(cur, Block(cur).(yielding := false));
        return true;
      }
      return Block(cur).stat != Running;
    }

    method SchedulePickNext() returns (n: Next)
      requires Rep() && Whole(K())
      modifies this`thread, this`tcb, this`bits, rings, rings.repr
      ensures Rep() && Grown() && (K(), n) == PickNext(old(K()))
    {
      hide Linked, BitsOk, Highest, Queues.Valid, Rep;
      ghost var k := K();
      HighestOk(k);
      n := GetHighest() by { WholeBits(k); }
      if n.Nobody? {
        return;
      }
      var higher := Block(n.t).prio < Block(cur).prio;
      var ok := DecideSwitch(n.t);
      if !ok {
        return Nobody;
      }
      MakeWay(higher, n.t, k);
    }

    // The current thread, if still running, goes back to its ready list.
    method MakeWay(higher: bool, ghost n: Tid, ghost k: Core)
      requires Rep() && cur in tcb && n in k.tcb && Whole(k) && cur == k.cur && (higher <==> T(k, n).prio < T(k, cur).prio)
      requires K() == if T(k, n).prio == T(k, cur).prio && T(k, cur).yielding then Put(k, cur, T(k, cur).(yielding := false)) else k
      modifies this`thread, this`tcb, this`bits, rings, rings.repr
      ensures Rep() && Grown() && K() == GiveWay(k, n)
    {
      hide Whole, Queues.Valid, Rep, AddTail, AddHead, GiveWay;
      var c := Block(cur);
      WayTaken(k, n, K());
      if c.stat == Running {
        Set(cur, c.(stat := Ready));
        if higher {
          ReadyAddHead(cur);
        } else {
          ReadyAddTail(cur);
        }
      }
    }

    // nd_context_switch_cb
    method SwitchTo(n: Tid)
      requires Rep() && n in tcb && tcb[n].qnode.On?
      modifies this`thread, this`tcb, this`bits, this`cur, rings, rings.repr
      ensures Rep() && Grown() && K() == ContextSwitch(old(K()), n)
    {
      hide Queues.Valid, ReadyRemove;
      assert n in ReadyRemove(K(), n).tcb by { RemovedKeys(K(), n); }
      ReadyTakeOut(n);
      cur := n;
      Set(n, Block(n).(stat := Running));
    }

    method DoScheduleCore()
      requires Rep() && Whole(K())
      modifies this`thread, this`tcb, this`bits, this`cur, rings, rings.repr
      ensures Rep() && Grown() && K() == ScheduleCore(old(K()))
    {
      hide Rep, Linked, BitsOk, Highest;
      ghost var k := K();
      HighestOk(k);
      var n := SchedulePickNext();
      if n.Next? {
        GiveWayOk(k, n.t);
        ReadyPlace(K(), n.t);
        SwitchTo(n.t);
      }
    }

    // nd_scheduler
    method Scheduler()
      requires Rep() && Whole(K())
      modifies this`thread, this`tcb, this`bits, this`cur, this`asked, rings, rings.repr
      ensures Rep() && Grown() && K() == Schedule(old(K()))
    {
      hide Linked, BitsOk, ThreadOk, ScheduleCore, Queues.Valid;
      if nest > 0 {
        asked := true;
        return;
      }
      DoScheduleCore();
    }

    // ----- Waiting

    // The loop of nd_thread_wait_insert: along the ring to the first less urgent waiter, or back to the head.
    method WaitPlace(l: ListId, h: Node, prio: nat) returns (node: Node, ghost i: nat)
      requires Rep() && l in rings.head && rings.Linked(l) && h == rings.head[l] && forall x | x in List(l) :: x in tcb
      ensures i == WaitPos(K(), List(l), prio) && i <= |rings.On(l)| && node == rings.At(l, i)
    {
      hide Queues.Valid;
      ghost var k, q := K(), List(l);
      i := 0;
      node := rings.Follow(h, l, |q|);
      rings.HeadApart(l, 0);
      while node != h && Block(rings.threadOf[node]).prio <= prio
        invariant i <= |q| && node == rings.At(l, i) && (node == h <==> i == |q|)
        invariant i < |q| ==> node in rings.threadOf && rings.threadOf[node] == q[i]
        invariant WaitPos(k, q, prio) == i + WaitPos(k, q[i..], prio)
        decreases |q| - i
      {
        assert q[i..][1..] == q[i + 1..] && q[i..][0] == q[i];
        node := rings.Follow(node, l, i);
        i := i + 1;
        rings.HeadApart(l, i);
      }
      assert i < |q| ==> q[i..][0] == q[i];
    }

    // nd_thread_wait_insert
    method WaitInsert(l: ListId, t: Tid)
      requires Rep() && t in tcb && tcb[t].qnode.Unlinked? && forall x | x in List(l) :: x in tcb
      modifies this`tcb, rings, rings.repr
      ensures Rep() && Stays() && K() == LinkAt(old(K()), t, l, WaitPos(old(K()), Q(old(K()), l), old(tcb[t].prio)))
    {
      hide Queues.Valid, Queues.Linked, Rep;
      var h := HeadNode(l);
      var node;
      ghost var i;
      node, i := WaitPlace(l, h, Block(t).prio);
      LinkBefore(node, t, l, i);
    }

    // node is the one at place i of list l, which holds q; at the end it is the head h.
    ghost predicate At(l: ListId, h: Node, node: Node, q: seq<Tid>, i: nat)
      reads rings
    {
      && l in rings.head && h == rings.head[l] && rings.On(l) == q && (forall x | x in q :: x in rings.qnode)
      && i <= |q| && node == if i < |q| then rings.qnode[q[i]] else h
    }

    method FirstNode(l: ListId, h: Node) returns (node: Node)
      requires Rep() && l in rings.head && rings.Linked(l) && h == rings.head[l]
      ensures At(l, h, node, List(l), 0)
    {
      assert rings.Linked(l);
      hide Queues.Valid;
      node := rings.Follow(h, l, |rings.On(l)|);
    }

    // The node's next pointer, read whether or not it is the head.
    method NextNode(ghost l: ListId, ghost h: Node, node: Node, ghost q: seq<Tid>, ghost i: nat) returns (next: Node)
      requires Rep() && At(l, h, node, q, i)
      ensures (node == h <==> i == |q|) && (i < |q| ==> At(l, h, next, q, i + 1))
    {
      OnlyHead(l, h, node, q, i);
      assert rings.Linked(l);
      hide Queues.Valid;
      next := rings.Follow(node, l, i);
    }

    lemma OnlyHead(l: ListId, h: Node, node: Node, q: seq<Tid>, i: nat)
      requires Rep() && At(l, h, node, q, i)
      ensures node == h <==> i == |q|
    {
      assert rings.Linked(l);
      rings.HeadApart(l, i);
    }

    // container_of
    method ThreadAt(ghost l: ListId, h: Node, node: Node, ghost q: seq<Tid>, ghost i: nat) returns (t: Tid)
      requires Rep() && At(l, h, node, q, i) && node != h
      ensures i < |q| && t == q[i]
    {
      assert rings.Linked(l);
      hide Queues.Valid;
      rings.HeadApart(l, i);
      t := rings.threadOf[node];
    }

    // nd_thread_pend
    method ThreadPend(call: Call)
      requires Rep() && cur in tcb && tcb[cur].qnode.Unlinked? && !call.DelayFor? && forall x | x in List(WaitList(call)) :: x in tcb
      modifies this`thread, this`tcb, this`tickets, rings, rings.repr
      ensures Rep() && Grown() && K() == Pend(old(K()), call)
    {
      hide Queues.Valid, Rep, Pend, LinkAt, WaitPos;
      PendFields(K(), call);
      WaitInsert(WaitList(call), cur);
      var c := Block(cur);
      c := c.(error := EOK, stat := Stat.Block, pc := Inside(call), cut := false, ticket := tickets, begun := c.begun + 1);
      c := c.(timer := if call.timeout.Forever? then Disarmed else PendTimer);
      Set(cur, c);
      tickets := tickets + 1;
    }

    // nd_thread_wakeup, nd_event_wakeup and nd_thread_pend_timeout: t leaves its wait list for the ready list.
    method EndWait(t: Tid, e: Ending)
      requires Rep() && Whole(K()) && t in tcb && tcb[t].stat == Stat.Block
      modifies this`thread, this`tcb, this`bits, rings, rings.repr
      ensures Rep() && Stays() && K() == Awaken(old(K()), t, e)
    {
      hide Whole, Queues.Valid, Rep, AddTail, Awaken, Unlink, Put;
      var c := Block(t);
      var linked := Waits(t);
      var f := c.(timer := Disarmed, error := e, stat := Ready, ended := c.ended + 1);
      AwakenSteps(K(), t, e, Full(f, tcb[t].qnode));
      Set(t, f);
      if linked {
        ListRemove(t);
      }
      ReadyAddTail(t);
    }

    // nd_list_is_linked on t's qnode
    method Waits(t: Tid) returns (r: bool)
      requires Rep() && t in tcb
      ensures r <==> tcb[t].qnode.On?
    {
      hide Queues.Valid;
      assert Agrees(t);
      r := rings.IsLinked(t);
    }

    // The head of a wait list is woken.
    method Wakeup(l: ListId) returns (t: Tid)
      requires Rep() && Whole(K()) && List(l) != [] && !l.ReadyList?
      modifies this`thread, this`tcb, this`bits, rings, rings.repr
      ensures Rep() && Grown() && t == old(List(l)[0]) && K() == Awaken(old(K()), t, EOK)
    {
      hide Whole, Queues.Valid, Awaken;
      t := rings.First(l);
      OnWait(K(), t, l);
      EndWait(t, EOK);
    }

    // What suspension and abortion do to t itself.
    method StopThread(t: Tid, st: Stat)
      requires Rep() && Whole(K()) && t in tcb
      modifies this`thread, this`tcb, this`bits, rings, rings.repr
      ensures Rep() && Grown() && K() == Retire(old(K()), t, st)
    {
      hide Whole, Queues.Valid, Rep, ReadyRemove, Unlink, Retire, Put, Stopped, Full;
      var c := Block(t);
      var linked := Waits(t);
      RetireSteps(K(), t, st);
      if c.stat == Ready {
        ReadyTakeOut(t);
      } else if linked {
        ListRemove(t);
      }
      Set(t, Stopped(c, st));
    }

    // nd_thread_change_priority
    method SetPriority(t: Tid, p: nat)
      requires Rep() && Whole(K()) && t in tcb
      modifies this`thread, this`tcb, this`bits, rings, rings.repr
      ensures Rep() && Grown() && K() == ChangePrio(old(K()), t, p)
    {
      hide Whole, Queues.Valid, Rep, ReadyRemove, AddHead, OnlyReady;
      if Block(t).stat == Ready {
        ReadyPlace(K(), t);
        RemoveOnly(K(), t);
        ReadyTakeOut(t);
        assert t in tcb by { RemovedKeys(old(K()), t); }
        Set(t, Block(t).(prio := p));
        ReadyAddHead(t);
      } else {
        Set(t, Block(t).(prio := p));
      }
    }

    // The pattern of every blocking call: pend and schedule.
    method PendAndSchedule(call: Call)
      requires Rep() && Good(S()) && MayWait(S(), call)
      modifies this`thread, this`tcb, this`bits, this`cur, this`asked, this`tickets, rings, rings.repr
      ensures Rep() && Grown() && S() == Wait(old(S()), call)
    {
      hide Rep, Queues.Valid, Whole, Good, MayWait, Schedule, Pend;
      PendReady(S(), call);
      ThreadPend(call);
      Scheduler();
    }

    // ----- Semaphores

    method SemTakeCall(id: nat, timeout: Timeout) returns (r: Reply)
      requires Rep() && Sound(S()) && MayCall(S(), timeout)
      modifies this, rings, rings.repr
      ensures Rep() && Grown() && (S(), r) == SemTake(old(S()), id, timeout)
    {
      hide Rep, Queues.Valid, Whole, ObjectsGood, MutexesGood, Wait;
      CallingRuns(S());
      var m := SemOfId(id);
      if m.val > 0 {
        sems := sems[id := m.(val := m.val - 1, granted := m.granted + 1)];
        return Done(EOK);
      }
      if timeout.NoWait? {
        return Done(EBUSY);
      }
      PendAndSchedule(TakeSem(id, timeout));
      r := Blocked;
    }

    function SemOfId(id: nat): Sem
      reads this`sems
    {
      if id in sems then sems[id] else Sem(0, 0, 0, 0)
    }

    // nd_list_is_empty
    method NoWaiter(l: ListId) returns (none: bool)
      requires Rep()
      ensures none <==> List(l) == []
    {
      hide Queues.Valid;
      none := rings.IsEmpty(l);
    }

    method SemReleaseCall(id: nat)
      requires Rep() && Sound(S())
      modifies this, rings, rings.repr
      ensures Rep() && Grown() && S() == SemRelease(old(S()), id)
    {
      hide Rep, Queues.Valid, Whole, ObjectsGood, MutexesGood, Schedule, Awaken;
      var m := SemOfId(id);
      var none := NoWaiter(SemList(id));
      if none {
        sems := sems[id := m.(val := m.val + 1, released := m.released + 1)];
      } else {
        HandUnit(id, m.(released := m.released + 1, granted := m.granted + 1));
      }
    }

    // The first waiter is woken with the unit.
    method HandUnit(id: nat, m: Sem)
      requires Rep() && Whole(K()) && List(SemList(id)) != []
      modifies this, rings, rings.repr
      ensures Rep() && Grown() && S() == Rescheduled(WakeHead(old(S()), SemList(id)).(sems := old(sems)[id := m]))
    {
      hide Rep, Queues.Valid, Linked, BitsOk, ThreadOk, Schedule, Awaken;
      AwakenHeadWhole(K(), SemList(id));
      var t := Wakeup(SemList(id));
      sems := sems[id := m];
      Scheduler();
    }

    // ----- Mutexes

    function MutexOfId(id: nat): Mutex
      reads this`mutexes
    {
      if id in mutexes then mutexes[id] else Mutex(None, PRIOS)
    }

    function TakenBy(t: Tid): seq<nat>
      reads this`taken
    {
      if t in taken then taken[t] else []
    }

    // The owner's boost in nd_mutex_lock.
    method BoostOwner(id: nat, o: Tid)
      requires Rep() && Good(S()) && MutexOf(S(), id).owner == Thread(o)
      modifies this, rings, rings.repr
      ensures Rep() && Grown() && S() == Boost(old(S()), id, o)
    {
      hide Rep, Queues.Valid, Whole, Good, ChangePrio;
      OwnerKnown(S(), id, o);
      if Block(o).prio > Block(cur).prio {
        var p := Block(cur).prio;
        mutexes := mutexes[id := MutexOfId(id).(prio := p)];
        SetPriority(o, p);
      }
    }

    method MutexLockCall(id: nat, timeout: Timeout) returns (r: Reply)
      requires Rep() && Sound(S()) && MayCall(S(), timeout) && Cur(S()).pc == Outside
      modifies this, rings, rings.repr
      ensures Rep() && Grown() && (S(), r) == MutexLock(old(S()), id, timeout)
    {
      hide Rep, Queues.Valid, Whole, ObjectsGood, MutexesGood, Wait, Boost, Urgent;
      CallingRuns(S());
      var m := MutexOfId(id);
      if m.owner == Thread(cur) {
        return Done(EDEADLK);
      }
      if m.owner == None {
        mutexes := mutexes[id := m.(owner := Thread(cur))];
        taken := taken[cur := [id] + TakenBy(cur)];
        return Done(EOK);
      }
      BoostSound(S(), id, m.owner.t);
      BoostKeeps(S(), id, m.owner.t);
      BoostOwner(id, m.owner.t);
      if timeout.NoWait? {
        return Done(EBUSY);
      }
      PendAndSchedule(LockMutex(id, timeout));
      r := Blocked;
    }

    // nd_mutex_restore_priority: a running minimum over the mutexes still held.
    method RestorePriority()
      requires Rep() && cur in tcb
      modifies this`thread, this`tcb
      ensures Rep() && K() == Put(old(K()), cur, old(tcb[cur]).(prio := LeastPrio(old(S()), old(tcb[cur].init), old(TakenBy(cur)))))
      ensures var (p, init, ids) := (T(K(), cur).prio, old(tcb[cur].init), old(TakenBy(cur)));
        && p <= init && (forall m | m in ids :: p <= old(MutexOfId(m)).prio) && (p == init || exists m | m in ids :: p == old(MutexOfId(m)).prio)
    {
      var ids, i, p := TakenBy(cur), 0, Block(cur).init;
      while i < |ids|
        invariant i <= |ids| && LeastPrio(S(), tcb[cur].init, ids) == LeastPrio(S(), p, ids[i..])
      {
        assert ids[i..][0] == ids[i] && ids[i..][1..] == ids[i + 1..];
        if MutexOfId(ids[i]).prio < p {
          p := MutexOfId(ids[i]).prio;
        }
        i := i + 1;
      }
      LeastPrioIs(S(), tcb[cur].init, ids);
      Set(cur, Block(cur).(prio := p));
    }

    method GiveUpMutex(id: nat)
      requires Rep() && cur in tcb
      modifies this`thread, this`tcb, this`taken
      ensures Rep() && S() == GiveUp(old(S()), id)
    {
      taken := taken[cur := Minus(TakenBy(cur), id)];
      RestorePriority();
    }

    method MutexUnlockCall(id: nat) returns (r: Reply)
      requires Rep() && Sound(S()) && Cur(S()).pc == Outside && Cur(S()).stat == Running
      modifies this, rings, rings.repr
      ensures Rep() && Grown() && (S(), r) == MutexUnlock(old(S()), id)
    {
      hide Rep, Queues.Valid, Whole, ObjectsGood, MutexesGood, Released, GiveUp, Schedule, Awaken;
      CallingRuns(S());
      if MutexOfId(id).owner != Thread(cur) {
        return Done(EPERM);
      }
      GiveUpReleased(S(), id);
      GiveUpMutex(id);
      var none := NoWaiter(MutexList(id));
      if none {
        mutexes := mutexes[id := Mutex(None, PRIOS)];
      } else {
        HandOver(id);
      }
      r := Done(EOK);
    }

    // The first waiter is woken as the new owner.
    method HandOver(id: nat)
      requires Rep() && Whole(K()) && List(MutexList(id)) != []
      modifies this, rings, rings.repr
      ensures Rep() && Grown() && S() == Rescheduled(Take(WakeHead(old(S()), MutexList(id)), id, old(List(MutexList(id))[0])))
    {
      hide Rep, Queues.Valid, Linked, BitsOk, ThreadOk, Schedule, Awaken;
      AwakenHeadWhole(K(), MutexList(id));
      var t := Wakeup(MutexList(id));
      mutexes := mutexes[id := MutexOfId(id).(owner := Thread(t))];
      taken := taken[t := [id] + TakenBy(t)];
      Scheduler();
    }

    // ----- Queues and pools

    method LeaveCall()
      requires Rep() && cur in tcb
      modifies this`thread, this`tcb
      ensures Rep() && S() == Leave(old(S()))
    {
      if nest == 0 {
        Set(cur, Block(cur).(pc := Outside));
      }
    }

    method WakeWaiter(l: ListId)
      requires Rep() && Whole(K()) && !l.ReadyList?
      modifies this, rings, rings.repr
      ensures Rep() && Grown() && S() == WakeOne(old(S()), l)
    {
      hide Rep, Queues.Valid, Linked, BitsOk, ThreadOk, Schedule, Awaken;
      var none := NoWaiter(l);
      if !none {
        AwakenHeadWhole(K(), l);
        var t := Wakeup(l);
        Scheduler();
      }
    }

    function QueueOfId(id: nat): Queue
      reads this`queues
    {
      if id in queues then queues[id] else Queue(1, [], [], [])
    }

    // One pass of the loop in nd_queue_send.
    method QueueSendPass(id: nat, msg: nat, timeout: Timeout) returns (r: Reply)
      requires Rep() && Sound(S()) && MayCall(S(), timeout)
      modifies this, rings, rings.repr
      ensures Rep() && Grown() && (S(), r) == QueueSend(old(S()), id, msg, timeout)
    {
      hide Rep, Queues.Valid, Whole, ObjectsGood, MutexesGood, Wait, WakeOne, Leave, Urgent;
      CallingRuns(S());
      LeaveSound(S());
      var q := QueueOfId(id);
      if |q.msgs| == q.max {
        if timeout.NoWait? {
          LeaveCall();
          return Done(EFULL);
        }
        PendAndSchedule(SendQueue(id, msg, timeout));
        return Blocked;
      }
      LeaveCall();
      queues := queues[id := q.(msgs := q.msgs + [msg], sent := q.sent + [msg])];
      WakeWaiter(RecvList(id));
      r := Done(EOK);
    }

    method QueueRecvPass(id: nat, timeout: Timeout) returns (r: Reply)
      requires Rep() && Sound(S()) && MayCall(S(), timeout)
      modifies this, rings, rings.repr
      ensures Rep() && Grown() && (S(), r) == QueueRecv(old(S()), id, timeout)
    {
      hide Rep, Queues.Valid, Whole, ObjectsGood, MutexesGood, Wait, WakeOne, Leave, Urgent;
      CallingRuns(S());
      LeaveSound(S());
      var q := QueueOfId(id);
      if q.msgs == [] {
        if timeout.NoWait? {
          LeaveCall();
          return Done(EEMPTY);
        }
        PendAndSchedule(RecvQueue(id, timeout));
        return Blocked;
      }
      LeaveCall();
      queues := queues[id := q.(msgs := q.msgs[1..], got := q.got + [q.msgs[0]])];
      WakeWaiter(SendList(id));
      r := Done(EOK);
    }

    function PoolOfId(id: nat): Pool
      reads this`pools
    {
      if id in pools then pools[id] else Pool(0, 0)
    }

    method PoolAllocPass(id: nat, timeout: Timeout) returns (r: Reply)
      requires Rep() && Sound(S()) && MayCall(S(), timeout)
      modifies this, rings, rings.repr
      ensures Rep() && Grown() && (S(), r) == PoolAlloc(old(S()), id, timeout)
    {
      hide Rep, Queues.Valid, Whole, ObjectsGood, MutexesGood, Wait, Leave, Urgent;
      CallingRuns(S());
      LeaveSound(S());
      var p := PoolOfId(id);
      if p.free == 0 {
        if timeout.NoWait? {
          LeaveCall();
          return Done(ERROR);
        }
        PendAndSchedule(AllocPool(id, timeout));
        return Blocked;
      }
      LeaveCall();
      pools := pools[id := p.(free := p.free - 1)];
      r := Done(EOK);
    }

    method PoolFreeCall(id: nat)
      requires Rep() && Sound(S())
      modifies this, rings, rings.repr
      ensures Rep() && Grown() && S() == PoolFree(old(S()), id)
    {
      hide Rep, Queues.Valid, Linked, BitsOk, ThreadOk, ObjectsGood, MutexesGood, WakeOne;
      var p := PoolOfId(id);
      pools := pools[id := p.(free := p.free + 1)];
      WakeWaiter(PoolList(id));
    }

    // ----- Events

    function EventBits(id: nat): set<nat>
      reads this`events
    {
      if id in events then events[id] else {}
    }

    method EventSendCall(id: nat, more: set<nat>)
      requires Rep() && Sound(S())
      modifies this, rings, rings.repr
      ensures Rep() && Grown() && S() == EventSend(old(S()), id, more)
    {
      hide Rep, Queues.Valid, Whole, ObjectsGood, MutexesGood, Walking, Satisfied, Schedule, Awaken, Urgent;
      WalkStart(S(), id, more);
      events := events[id := EventBits(id) + more];
      ghost var visited := EventVisit(id);
      Scheduler();
    }

    // One waiter of the walk: woken if the bits satisfy it.
    method Visit(id: nat, t: Tid, ghost rest: seq<Tid>) returns (woken: bool)
      requires Rep() && Walking(S(), id, rest) && rest != [] && rest[0] == t
      modifies this`thread, this`tcb, this`bits, this`events, rings, rings.repr
      ensures Rep() && Stays() && Walking(S(), id, rest[1..]) && EventWalk(S(), id, rest[1..]) == old(EventWalk(S(), id, rest))
      ensures var l := EventList(id); List(l) == if woken then Minus(old(List(l)), t) else old(List(l))
    {
      hide Rep, Queues.Valid, Whole, ObjectsGood, MutexesGood, Walking, Satisfied, Awaken;
      VisitWait(S(), id, rest);
      var c := Block(t);
      woken := Satisfied(EventBits(id), c.mask, c.every);
      if woken {
        WalkWake(S(), id, rest);
        VisitLeaves(S(), id, rest, c.error);
        events := events[id := EventBits(id) - c.mask];
        EndWait(t, c.error);
      } else {
        WalkSkip(S(), id, rest);
      }
    }

    // The safe walk of nd_event_send, with the next node saved before each waiter is dealt with: it meets the waiters there
    // were at its start, each once and in order, whatever becomes of those behind it.
    method EventVisit(id: nat) returns (ghost visited: seq<Tid>)
      requires Rep() && Walking(S(), id, List(EventList(id)))
      modifies this`thread, this`tcb, this`bits, this`events, rings, rings.repr
      ensures Rep() && Grown() && Whole(K()) && visited == old(List(EventList(id)))
      ensures S() == EventWalk(old(S()), id, old(List(EventList(id))))
    {
      hide Queues.Valid, Queues.Linked, Rep, Whole, Walking, At, EventWalk;
      var l := EventList(id);
      ghost var q := List(l);
      var h := HeadNode(l);
      var node := FirstNode(l, h);
      var tmp := NextNode(l, h, node, q, 0);
      assert q == [] + q[0..] == q[0..];
      visited := Walk(id, h, node, tmp, q);
    }

    method Walk(id: nat, h: Node, first: Node, second: Node, ghost q: seq<Tid>) returns (ghost visited: seq<Tid>)
      requires Rep() && Walking(S(), id, q) && At(EventList(id), h, first, q, 0) && (first == h <==> q == [])
      requires q != [] ==> At(EventList(id), h, second, q, 1)
      modifies this`thread, this`tcb, this`bits, this`events, rings, rings.repr
      ensures Rep() && Grown() && Whole(K()) && visited == q && S() == EventWalk(old(S()), id, q)
    {
      hide Queues.Valid, Queues.Linked, Rep, Whole, Walking, At, EventWalk;
      var node, tmp := first, second;
      ghost var s, kept, i := S(), [], 0;
      visited := [];
      assert q == [] + q[0..] == q[0..];
      while node != h
        invariant i <= |q| && visited == q[..i] && Rep() && Grown()
        invariant Walking(S(), id, q[i..]) && EventWalk(S(), id, q[i..]) == EventWalk(s, id, q)
        invariant At(EventList(id), h, node, kept + q[i..], |kept|) && (node == h <==> i == |q|)
        invariant i < |q| ==> At(EventList(id), h, tmp, kept + q[i..], |kept| + 1)
        decreases |q| - i
      {
        kept := VisitNode(id, h, node, tmp, q, kept, i);
        visited := visited + [q[i]];
        i, node := i + 1, tmp;
        tmp := NextNode(EventList(id), h, node, kept + q[i..], |kept|);
      }
      assert q[i..] == [];
      WalkOver(S(), id);
    }

    // One round of the walk; the saved node is the next one, whatever became of this one.
    method VisitNode(id: nat, h: Node, node: Node, tmp: Node, ghost q: seq<Tid>, ghost kept: seq<Tid>, ghost i: nat) returns (ghost kept': seq<Tid>)
      requires Rep() && i < |q| && Walking(S(), id, q[i..]) && node != h
      requires At(EventList(id), h, node, kept + q[i..], |kept|) && At(EventList(id), h, tmp, kept + q[i..], |kept| + 1)
      modifies this`thread, this`tcb, this`bits, this`events, rings, rings.repr
      ensures Rep() && Stays() && Walking(S(), id, q[i + 1..]) && EventWalk(S(), id, q[i + 1..]) == old(EventWalk(S(), id, q[i..]))
      ensures At(EventList(id), h, tmp, kept' + q[i + 1..], |kept'|)
    {
      hide Queues.Valid, Queues.Linked, Rep, Whole, Walking, Minus, EventWalk;
      var t := ThreadAt(EventList(id), h, node, kept + q[i..], |kept|);
      assert q[i..][0] == q[i] && q[i..][1..] == q[i + 1..];
      MiddleOut(S(), id, kept, q, i);
      var woken := Visit(id, t, q[i..]);
      kept' := if woken then kept else kept + [t];
      assert kept + q[i..] == (kept + [t]) + q[i + 1..];
    }

    method SetMask(mask: set<nat>, every: bool)
      requires Rep() && cur in tcb
      modifies this`thread, this`tcb
      ensures Rep() && K() == Put(old(K()), cur, old(tcb[cur]).(mask := mask, every := every))
    {
      hide Queues.Valid, Rep;
      Set(cur, Block(cur).(mask := mask, every := every));
    }

    method EventRecvCall(id: nat, mask: set<nat>, every: bool, timeout: Timeout) returns (r: Reply)
      requires Rep() && Sound(S()) && MayCall(S(), timeout)
      modifies this, rings, rings.repr
      ensures Rep() && Grown() && (S(), r) == EventRecv(old(S()), id, mask, every, timeout)
    {
      hide Rep, Queues.Valid, Sound, Good, Wait, MayWait, Satisfied, Put, MayCall;
      RecvMayWait(S(), id, mask, every, timeout);
      SetMask(mask, every);
      r := TakeBits(id, mask, every, timeout);
    }

    // The rest of a receive, once the caller's mask is set.
    method TakeBits(id: nat, mask: set<nat>, every: bool, timeout: Timeout) returns (r: Reply)
      requires Rep() && (!timeout.NoWait? && !Satisfied(EventOf(S(), id), mask, every) ==> Good(S()) && MayWait(S(), RecvEvent(id, timeout)))
      modifies this, rings, rings.repr
      ensures Rep() && Grown()
      ensures (S(), r) == (var s := old(S());
        if Satisfied(EventOf(s, id), mask, every) then (s.(events := s.events[id := EventOf(s, id) - mask]), Done(EOK))
        else if timeout.NoWait? then (s, Done(EBUSY))
        else (Wait(s, RecvEvent(id, timeout)), Blocked))
    {
      hide Rep, Queues.Valid, Good, Wait, MayWait, Satisfied;
      if Satisfied(EventBits(id), mask, every) {
        events := events[id := EventBits(id) - mask];
        return Done(EOK);
      }
      if timeout.NoWait? {
        return Done(EBUSY);
      }
      PendAndSchedule(RecvEvent(id, timeout));
      r := Blocked;
    }

    // ----- Threads

    method JoinCall(t: Tid, timeout: Timeout) returns (r: Reply)
      requires Rep() && Sound(S()) && MayCall(S(), timeout) && t in tcb
      modifies this, rings, rings.repr
      ensures Rep() && Grown() && (S(), r) == ThreadJoin(old(S()), t, timeout)
    {
      hide Rep, Queues.Valid, Whole, ObjectsGood, MutexesGood, Wait, Urgent;
      CallingRuns(S());
      if t == cur {
        return Done(EDEADLK);
      }
      if Block(t).stat == Dead {
        return Done(EOK);
      }
      if timeout.NoWait? {
        return Done(EBUSY);
      }
      PendAndSchedule(JoinThread(t, timeout));
      r := Blocked;
    }

    method StartDelay(n: nat)
      requires Rep() && cur in tcb
      modifies this`thread, this`tcb
      ensures Rep() && K() == DelayStart(old(K()), n)
    {
      hide Queues.Valid, Rep;
      var c := Block(cur);
      Set(cur, c.(stat := Stat.Block, timer := DelayTimer, pc := Inside(DelayFor(n)), begun := c.begun + 1));
    }

    method DelayCall(n: nat)
      requires Rep() && Sound(S()) && Calling(S())
      modifies this, rings, rings.repr
      ensures Rep() && Grown() && S() == ThreadDelay(old(S()), n)
    {
      hide Rep, Queues.Valid, Linked, BitsOk, ThreadOk, ObjectsGood, MutexesGood, Schedule;
      CallingRuns(S());
      DelayStartOk(K(), n);
      StartDelay(n);
      Scheduler();
    }

    method SetYield()
      requires Rep() && cur in tcb
      modifies this`thread, this`tcb
      ensures Rep() && K() == Put(old(K()), cur, old(tcb[cur]).(yielding := true))
    {
      hide Queues.Valid, Rep;
      Set(cur, Block(cur).(yielding := true));
    }

    method YieldCall()
      requires Rep() && Whole(K())
      modifies this, rings, rings.repr
      ensures Rep() && Grown() && S() == ThreadYield(old(S()))
    {
      hide Rep, Queues.Valid, Linked, BitsOk, ThreadOk, Schedule;
      PutWhole(K(), cur, tcb[cur].(yielding := true));
      SetYield();
      Scheduler();
    }

    // nd_thread_slice_timeout
    method SliceCallback(t: Tid)
      requires Rep() && Whole(K())
      modifies this, rings, rings.repr
      ensures Rep() && Grown() && S() == SliceTimeout(old(S()), t)
    {
      hide Rep, Queues.Valid, Linked, BitsOk, ThreadOk, ThreadYield;
      if t != cur || Block(cur).prio >= PRIOS {
        return;
      }
      var none := NoWaiter(ReadyList(Block(cur).prio));
      if none {
        return;
      }
      YieldCall();
    }

    method MakeReady(t: Tid)
      requires Rep() && t in tcb && tcb[t].qnode == Unlinked
      modifies this`thread, this`tcb, this`bits, rings, rings.repr
      ensures Rep() && Grown() && K() == AddTail(Put(old(K()), t, old(tcb[t]).(stat := Ready)), t)
    {
      hide Queues.Valid, Rep, AddTail;
      Set(t, Block(t).(stat := Ready));
      ReadyAddTail(t);
    }

    method ResumeCall(t: Tid) returns (r: Reply)
      requires Rep() && Sound(S()) && t in tcb
      modifies this, rings, rings.repr
      ensures Rep() && Grown() && (S(), r) == ThreadResume(old(S()), t)
    {
      hide Rep, Queues.Valid, Whole, ObjectsGood, MutexesGood, Schedule, AddTail, OnlyReady;
      if Block(t).stat != Suspend {
        return Done(ERROR);
      }
      Suspended(K(), t);
      ResumeOk(K(), t);
      MakeReady(t);
      Scheduler();
      r := Done(EOK);
    }

    method SuspendCall(t: Tid) returns (r: Reply)
      requires Rep() && Sound(S()) && t in tcb && t != idle
      modifies this, rings, rings.repr
      ensures Rep() && Grown() && (S(), r) == ThreadSuspend(old(S()), t)
    {
      hide Rep, Queues.Valid, Whole, Sound, Schedule, Retire;
      SoundParts(S());
      SuspendWhole(K(), t);
      if TakenBy(t) != [] {
        return Done(EPERM);
      }
      var stat := Block(t).stat;
      if stat == Dead || stat == Suspend {
        return Done(ERROR);
      }
      SuspendNow(t, stat != Ready);
      r := Done(EOK);
    }

    method SuspendNow(t: Tid, switch: bool)
      requires Rep() && Whole(K()) && t in tcb && Whole(Retire(K(), t, Suspend))
      modifies this, rings, rings.repr
      ensures Rep() && Grown() && S() == (var s1 := old(S()).(k := Retire(old(K()), t, Suspend)); if switch then Rescheduled(s1) else s1)
    {
      hide Rep, Queues.Valid, Whole, Schedule, Retire;
      StopThread(t, Suspend);
      if switch {
        Scheduler();
      }
    }

    // The loop of nd_thread_halt over the joiners.
    method WakeJoiners(t: Tid)
      requires Rep() && Whole(K()) && ObjectsGoodBut(S(), t) && MutexesGood(S())
      modifies this`thread, this`tcb, this`bits, rings, rings.repr
      ensures Rep() && Grown() && K() == WakeAll(old(K()), JoinList(t)) && Whole(K())
    {
      hide Rep, Queues.Valid, Whole, ObjectsGoodBut, MutexesGood, Awaken;
      ghost var k := K();
      var none := NoWaiter(JoinList(t));
      while !none
        invariant Rep() && Grown() && (none <==> List(JoinList(t)) == [])
        invariant Whole(K()) && ObjectsGoodBut(S(), t) && MutexesGood(S()) && WakeAll(K(), JoinList(t)) == WakeAll(k, JoinList(t))
        decreases |List(JoinList(t))|
      {
        WakeAllStep(S(), t);
        var _ := Wakeup(JoinList(t));
        none := NoWaiter(JoinList(t));
      }
    }

    // nd_thread_halt
    method HaltThread(t: Tid)
      requires Rep() && Sound(S()) && t in tcb && T(K(), t).stat != Dead && !T(K(), t).essential
      modifies this, rings, rings.repr
      ensures Rep() && Grown() && S() == ThreadHalt(old(S()), t)
    {
      hide Rep, Queues.Valid, Whole, ObjectsGood, MutexesGood, ObjectsGoodBut, Retire, WakeAll, Schedule;
      RetireOther(K(), t);
      RetireGood(S(), t);
      StopThread(t, Dead);
      WakeJoiners(t);
      if t == cur {
        Scheduler();
      }
    }

    method AbortCall(t: Tid) returns (r: Reply)
      requires Rep() && Sound(S()) && t in tcb
      modifies this, rings, rings.repr
      ensures Rep() && Grown() && (S(), r) == ThreadAbort(old(S()), t)
    {
      hide Rep, Queues.Valid, Whole, ObjectsGood, MutexesGood, ThreadHalt;
      if Block(t).stat == Dead {
        return Done(EOK);
      }
      if Block(t).essential {
        return Done(EPERM);
      }
      HaltThread(t);
      r := Done(EOK);
    }

    method CreateCall(t: Tid, prio: nat, essential: bool) returns (r: Reply)
      requires Rep() && Sound(S()) && t !in tcb
      modifies this, rings, rings.repr
      ensures Rep() && Grown() && (S(), r) == ThreadCreate(old(S()), t, prio, essential)
    {
      hide Rep, Queues.Valid, Whole, Sound, Schedule, Create;
      if prio >= PRIOS {
        return Done(EINVAL);
      }
      CreatedWhole(S(), t, prio, essential);
      AddThread(t, prio, essential);
      Scheduler();
      r := Done(EOK);
    }

    method AddThread(t: Tid, prio: nat, essential: bool)
      requires Rep() && t !in tcb
      modifies this`thread, this`tcb, this`bits, rings, rings.repr
      ensures Rep() && Grown() && K() == Create(old(K()), t, prio, essential)
    {
      Enlist(t, Bare(NewThread(prio, essential)));
      ReadyAddTail(t);
    }

    // ----- Interrupts

    // nd_thread_pend_timeout or thread_timer_callback, whichever t armed.
    method TimerCallback(t: Tid)
      requires Rep() && Sound(S()) && t in tcb && tcb[t].timer != Disarmed
      modifies this, rings, rings.repr
      ensures Rep() && Grown() && S() == TimerFires(old(S()), t)
    {
      hide Rep, Queues.Valid, Whole, Sound, Schedule, Awaken;
      var e: Ending := if Block(t).timer == PendTimer then ETIMEOUT else Block(t).error;
      TimerWakes(S(), t);
      EndWait(t, e);
      Scheduler();
    }

    // nd_exit_interrupt, and the deferred switch behind the outermost one
    method ExitInterrupt()
      requires Rep() && Sound(S()) && nest > 0
      modifies this, rings, rings.repr
      ensures Rep() && Grown() && S() == ExitIrq(old(S()))
    {
      hide Rep, Queues.Valid, Whole, ObjectsGood, MutexesGood, ScheduleCore;
      nest := nest - 1;
      if nest > 0 || !asked {
        return;
      }
      asked := false;
      FlagsWhole(old(K()), false, 0);
      DoScheduleCore();
    }

    // What a dispatched thread does first: the code behind nd_scheduler() in the call it is in.
    method ReturnFromWait() returns (r: Reply)
      requires Rep() && Sound(S()) && nest == 0 && Cur(S()).pc.Inside?
      modifies this, rings, rings.repr
      ensures Rep() && Grown() && (S(), r) == Return(old(S()))
    {
      hide Rep, Queues.Valid, Linked, BitsOk, ObjectsGood, MutexesGood, Leave, QueueSend, QueueRecv, PoolAlloc;
      CallingRuns(S());
      var c := Block(cur);
      if (c.pc.call.SendQueue? || c.pc.call.RecvQueue? || c.pc.call.AllocPool?) && c.error != ETIMEOUT {
        match c.pc.call
        case SendQueue(id, msg, timeout) => r := QueueSendPass(id, msg, timeout);
        case RecvQueue(id, timeout) => r := QueueRecvPass(id, timeout);
        case AllocPool(id, timeout) => r := PoolAllocPass(id, timeout);
      } else {
        LeaveCall();
        r := Done(c.error);
      }
    }

    // One step of the system.
    method Execute(op: Op) returns (r: Reply)
      requires Rep() && Sound(S()) && Legal(S(), op)
      modifies this, rings, rings.repr
      ensures Rep() && Grown() && (S(), r) == Step(old(S()), op) && Sound(S())
    {
      hide Rep, Queues.Valid, Sound, Urgent, Step;
      StepSound(S(), op);
      if op.OnObject() {
        r := ExecuteObject(op);
      } else {
        r := ExecuteThread(op);
      }
    }

    method ExecuteObject(op: Op) returns (r: Reply)
      requires Rep() && Sound(S()) && Legal(S(), op) && op.OnObject()
      modifies this, rings, rings.repr
      ensures Rep() && Grown() && (S(), r) == Step(old(S()), op)
    {
      hide Rep, Queues.Valid, Sound, SemTake, SemRelease, MutexLock, MutexUnlock, QueueSend, QueueRecv, PoolAlloc, PoolFree,
        EventSend, EventRecv;
      r := Done(EOK);
      match op {
        case OpSemTake(id, timeout) => r := SemTakeCall(id, timeout);
        case OpSemRelease(id) => SemReleaseCall(id);
        case OpLock(id, timeout) => r := MutexLockCall(id, timeout);
        case OpUnlock(id) => r := MutexUnlockCall(id);
        case OpSend(id, msg, timeout) => r := QueueSendPass(id, msg, timeout);
        case OpRecv(id, timeout) => r := QueueRecvPass(id, timeout);
        case OpAlloc(id, timeout) => r := PoolAllocPass(id, timeout);
        case OpFree(id) => PoolFreeCall(id);
        case OpEventSend(id, more) => EventSendCall(id, more);
        case OpEventRecv(id, mask, every, timeout) => r := EventRecvCall(id, mask, every, timeout);
      }
    }

    method ExecuteThread(op: Op) returns (r: Reply)
      requires Rep() && Sound(S()) && Legal(S(), op) && !op.OnObject()
      modifies this, rings, rings.repr
      ensures Rep() && Grown() && (S(), r) == Step(old(S()), op)
    {
      hide Rep, Queues.Valid, Sound, ThreadJoin, ThreadDelay, ThreadYield, ThreadSuspend, ThreadResume, ThreadAbort,
        ThreadCreate, ExitIrq, TimerFires, SliceTimeout, Return;
      SoundParts(S());
      r := Done(EOK);
      match op {
        case OpJoin(t, timeout) => r := JoinCall(t, timeout);
        case OpDelay(n) =>
          DelayCall(n);
          r := Blocked;
        case OpYield => YieldCall();
        case OpSuspend(t) => r := SuspendCall(t);
        case OpResume(t) => r := ResumeCall(t);
        case OpAbort(t) => r := AbortCall(t);
        case OpCreate(t, prio, essential) => r := CreateCall(t, prio, essential);
        case OpEnter => nest := nest + 1;
        case OpExit => ExitInterrupt();
        case OpTimer(t) => TimerCallback(t);
        case OpSlice(t) => SliceCallback(t);
        case OpReturn => r := ReturnFromWait();
      }
    }

    // Any number of steps.
    method Drive(ops: seq<Op>)
      requires Rep() && Sound(S()) && Allowed(S(), ops)
      modifies this, rings, rings.repr
      ensures Rep() && Grown() && S() == RunAll(old(S()), ops) && Sound(S())
    {
      hide Rep, Queues.Valid, Sound, Step, Legal;
      ghost var s := S();
      var i := 0;
      assert ops[0..] == ops;
      while i < |ops|
        invariant i <= |ops| && Rep() && Grown() && Sound(S()) && Allowed(S(), ops[i..]) && RunAll(S(), ops[i..]) == RunAll(s, ops)
      {
        assert ops[i..][0] == ops[i] && ops[i..][1..] == ops[i + 1..];
        var _ := Execute(ops[i]);
        i := i + 1;
      }
    }
  }
}
