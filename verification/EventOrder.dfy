// What nd_event_send hands out: a greedy fold over the waiters in list order.
module EventOrder {
  import opened BitOps
  import opened KernelCore
  import opened Ipc

  datatype Want = Want(mask: set<nat>, every: bool)

  // What an event's user asks for: every bit of the mask, or any of them.
  predicate Met(bits: set<nat>, w: Want) { if w.every then w.mask <= bits else exists b :: b in w.mask && b in bits }

  // The bits left after serving ws in order.
  function Left(bits: set<nat>, ws: seq<Want>): set<nat> {
    if ws == [] then bits
    else Left(if Met(bits, ws[0]) then bits - ws[0].mask else bits, ws[1..])
  }

  // Which of ws are served.
  function Served(bits: set<nat>, ws: seq<Want>): (r: seq<bool>)
    ensures |r| == |ws|
  {
    if ws == [] then []
    else
      var ok := Met(bits, ws[0]);
      [ok] + Served(if ok then bits - ws[0].mask else bits, ws[1..])
  }

  // The bits each of ws consumes.
  function Spent(bits: set<nat>, ws: seq<Want>): (r: seq<set<nat>>)
    ensures |r| == |ws|
  {
    if ws == [] then []
    else
      var ok := Met(bits, ws[0]);
      [if ok then bits * ws[0].mask else {}] + Spent(if ok then bits - ws[0].mask else bits, ws[1..])
  }

  // No bit is consumed twice, none is lost, and none appears.
  lemma {:induction false} EachBitOnce(bits: set<nat>, ws: seq<Want>, b: nat)
    ensures b !in bits ==> b !in Left(bits, ws) && forall i | 0 <= i < |ws| :: b !in Spent(bits, ws)[i]
    ensures b in bits && b in Left(bits, ws) ==> forall i | 0 <= i < |ws| :: b !in Spent(bits, ws)[i]
    ensures b in bits && b !in Left(bits, ws) ==>
      exists i :: 0 <= i < |ws| && b in Spent(bits, ws)[i] && forall j | 0 <= j < |ws| && j != i :: b !in Spent(bits, ws)[j]
  {
    if ws != [] {
      var rest := if Met(bits, ws[0]) then bits - ws[0].mask else bits;
      EachBitOnce(rest, ws[1..], b);
      var p, q := Spent(bits, ws), Spent(rest, ws[1..]);
      assert forall j | 0 < j < |ws| :: p[j] == q[j - 1];
      if b in bits && b !in Left(bits, ws) {
        if b in rest {
          var i :| 0 <= i < |ws| - 1 && b in q[i] && forall j | 0 <= j < |ws| - 1 && j != i :: b !in q[j];
          assert b in p[i + 1] && forall j | 0 <= j < |ws| && j != i + 1 :: b !in p[j];
        } else {
          assert b in p[0];
        }
      }
    }
  }

  // Served exactly when the bits left by those before hold all of its mask, or any of it if that is what it asked for, and
  // consuming exactly the wanted bits among them.
  lemma {:induction false} ServedAt(bits: set<nat>, ws: seq<Want>, i: nat)
    requires i < |ws|
    ensures var (left, w) := (Left(bits, ws[..i]), ws[i]);
      && (Served(bits, ws)[i] <==> if w.every then w.mask <= left else exists b :: b in w.mask && b in left)
      && Spent(bits, ws)[i] == (if Served(bits, ws)[i] then left * w.mask else {})
      && Left(bits, ws[..i + 1]) == left - Spent(bits, ws)[i]
  {
    if i > 0 {
      var rest := if Met(bits, ws[0]) then bits - ws[0].mask else bits;
      assert ws[..i][0] == ws[0] && ws[..i][1..] == ws[1..][..i - 1];
      assert ws[..i + 1][0] == ws[0] && ws[..i + 1][1..] == ws[1..][..i];
      ServedAt(rest, ws[1..], i - 1);
    } else {
      assert ws[..1][0] == ws[0] && ws[..1][1..] == [];
    }
  }

  ghost function Wants(k: Core, q: seq<Tid>): (ws: seq<Want>)
    ensures |ws| == |q|
  {
    seq(|q|, i requires 0 <= i < |q| => Want(T(k, q[i]).mask, T(k, q[i]).every))
  }

  // A waiter that has been served.
  function Woken(c: Tcb): Tcb { c.(stat := Ready, timer := Disarmed, qnode := On(ReadyList(c.prio)), ended := c.ended + 1) }

  // Among rest, those served are ready and off the list with their error untouched, the others wait as before.
  ghost predicate AsServed(k: Core, k': Core, rest: seq<Tid>, served: seq<bool>)
    requires |served| == |rest|
  {
    forall i {:trigger rest[i]} | 0 <= i < |rest| :: T(k', rest[i]) == if served[i] then Woken(T(k, rest[i])) else T(k, rest[i])
  }

  // The walk over the list is the greedy fold.
  lemma {:induction false} WalkIsGreedy(s: State, id: nat, rest: seq<Tid>)
    requires Walking(s, id, rest)
    ensures var (s', ws, bits) := (EventWalk(s, id, rest), Wants(s.k, rest), EventOf(s, id));
      EventOf(s', id) == Left(bits, ws) && AsServed(s.k, s'.k, rest, Served(bits, ws)) && (forall x | x !in rest :: T(s'.k, x) == T(s.k, x))
    decreases |rest|
  {
    hide Walking, Satisfied, Met, AsServed, Awaken, Woken;
    var s', ws, bits := EventWalk(s, id, rest), Wants(s.k, rest), EventOf(s, id);
    if rest == [] {
      NoneServed(s.k);
    } else {
      var c := T(s.k, rest[0]);
      var ok := Satisfied(bits, c.mask, c.every);
      MetMeans(bits, ws[0]);
      var s1 := if ok then s.(events := s.events[id := bits - c.mask], k := Awaken(s.k, rest[0], c.error)) else s;
      HeadApart(s, id, rest);
      if ok {
        WalkWake(s, id, rest);
        WokenAlone(s, id, rest);
      } else {
        WalkSkip(s, id, rest);
      }
      WalkIsGreedy(s1, id, rest[1..]);
      assert Wants(s1.k, rest[1..]) == ws[1..];
      Extend(s.k, s1.k, s'.k, rest, Served(EventOf(s1, id), ws[1..]), ok);
    }
  }

  lemma MetMeans(bits: set<nat>, w: Want)
    ensures Met(bits, w) <==> Satisfied(bits, w.mask, w.every)
  {
    SatisfiedMeans(bits, w.mask, w.every);
  }

  lemma NoneServed(k: Core)
    ensures AsServed(k, k, [], [])
  {
  }

  lemma Extend(k: Core, k1: Core, k': Core, rest: seq<Tid>, served: seq<bool>, ok: bool)
    requires rest != [] && |served| == |rest| - 1 && AsServed(k1, k', rest[1..], served) && rest[0] !in rest[1..]
    requires (forall x | x !in rest[1..] :: T(k', x) == T(k1, x)) && (forall x | x != rest[0] :: T(k1, x) == T(k, x))
    requires T(k1, rest[0]) == if ok then Woken(T(k, rest[0])) else T(k, rest[0])
    ensures AsServed(k, k', rest, [ok] + served) && forall x | x !in rest :: T(k', x) == T(k, x)
  {
    hide Woken;
    forall i | 0 <= i < |rest| ensures T(k', rest[i]) == if ([ok] + served)[i] then Woken(T(k, rest[i])) else T(k, rest[i]) {
      assert i > 0 ==> rest[i] == rest[1..][i - 1] && ([ok] + served)[i] == served[i - 1];
    }
  }

  lemma HeadApart(s: State, id: nat, rest: seq<Tid>)
    requires Walking(s, id, rest) && rest != []
    ensures rest[0] !in rest[1..]
  {
  }

  lemma WokenAlone(s: State, id: nat, rest: seq<Tid>)
    requires Walking(s, id, rest) && rest != []
    ensures var k := Awaken(s.k, rest[0], T(s.k, rest[0]).error);
      && rest[0] !in rest[1..] && T(k, rest[0]) == Woken(T(s.k, rest[0]))
      && forall x | x != rest[0] :: T(k, x) == T(s.k, x)
  {
    hide Whole;
    OnWait(s.k, rest[0], EventList(id));
    AwakenOk(s.k, rest[0], T(s.k, rest[0]).error);
  }

  // nd_event_send sets the bits and serves greedily: a waiter leaves exactly if the bits left at its turn hold all, or any, of
  // its mask, and those that stay could not be served by the bits that remain either.
  lemma SendIsGreedy(s: State, id: nat, bits: set<nat>)
    requires Sound(s)
    ensures var (s', q) := (EventSend(s, id, bits), Q(s.k, EventList(id)));
      var (all, ws) := (EventOf(s, id) + bits, Wants(s.k, q));
      && EventOf(s', id) == Left(all, ws)
      && (forall i | 0 <= i < |q| :: var left := Left(all, ws[..i]);
           q[i] !in Q(s'.k, EventList(id)) <==> if ws[i].every then ws[i].mask <= left else exists b :: b in ws[i].mask && b in left)
      && forall t | t in Q(s'.k, EventList(id)) :: var c := T(s'.k, t);
           if c.every then exists b :: b in c.mask && b !in EventOf(s', id) else forall b | b in c.mask :: b !in EventOf(s', id)
  {
    hide Whole, ObjectsGood, MutexesGood, Walking, Satisfied, Content, Met, EventWalk;
    var q, s1, ws := Q(s.k, EventList(id)), s.(events := s.events[id := EventOf(s, id) + bits]), Wants(s.k, Q(s.k, EventList(id)));
    var s2, s' := EventWalk(s1, id, q), EventSend(s, id, bits);
    WalkStart(s, id, bits);
    WalkIsGreedy(s1, id, q);
    WalkGood(s1, id, q);
    assert Wants(s1.k, q) == ws;
    EventSendSound(s, id, bits);
    RescheduledGood(s2);
    forall i | 0 <= i < |q| ensures var left := Left(EventOf(s, id) + bits, ws[..i]);
      q[i] !in Q(s'.k, EventList(id)) <==> if ws[i].every then ws[i].mask <= left else exists b :: b in ws[i].mask && b in left {
      ServedAt(EventOf(s, id) + bits, ws, i);
      ServedLeaves(s.k, s2.k, id, Served(EventOf(s, id) + bits, ws), i);
    }
    forall t | t in Q(s'.k, EventList(id)) ensures var c := T(s'.k, t);
      if c.every then exists b :: b in c.mask && b !in EventOf(s', id) else forall b | b in c.mask :: b !in EventOf(s', id) {
      ContentAll(s', id);
      ContentMeans(s', id, t);
    }
  }

  lemma ServedLeaves(k: Core, k': Core, id: nat, served: seq<bool>, i: nat)
    requires Whole(k) && Whole(k') && |served| == |Q(k, EventList(id))| && i < |served| && AsServed(k, k', Q(k, EventList(id)), served)
    ensures Q(k, EventList(id))[i] !in Q(k', EventList(id)) <==> served[i]
  {
    hide Whole;
    var q := Q(k, EventList(id));
    OnWait(k, q[i], EventList(id));
    assert T(k', q[i]) == if served[i] then Woken(T(k, q[i])) else T(k, q[i]);
    StillWaiting(k, k', q[i], id);
  }

  lemma ContentAll(s: State, id: nat)
    requires ObjectsGood(s)
    ensures forall t :: t in Q(s.k, EventList(id)) ==> Content(s, id, t)
  {
    assert EventGood(s, id);
  }

  lemma ContentMeans(s: State, id: nat, t: Tid)
    requires Content(s, id, t)
    ensures var c := T(s.k, t);
      if c.every then exists b :: b in c.mask && b !in EventOf(s, id) else forall b | b in c.mask :: b !in EventOf(s, id)
  {
    hide Satisfied;
    SatisfiedMeans(EventOf(s, id), T(s.k, t).mask, T(s.k, t).every);
  }

  lemma StillWaiting(k: Core, k': Core, t: Tid, id: nat)
    requires Whole(k) && Whole(k') && t in Q(k, EventList(id)) && (T(k', t).stat == Ready || T(k', t) == T(k, t))
    ensures t in Q(k', EventList(id)) <==> T(k', t).stat != Ready
  {
    assert ListOk(k, EventList(id)) && ListOk(k', EventList(id)) && NodeOk(k', t);
  }
}
