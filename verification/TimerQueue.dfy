module TimerQueue {
  import opened RbTree

  const U64: nat := 0x1_0000_0000_0000_0000

  // Addition on the 64-bit clock wraps around.
  function Wrap64(x: nat): (r: nat)
    ensures r < U64 && (r == x <==> x < U64)
  {
    x % U64
  }

  // A timer started at now is due later than now exactly when the clock does not wrap; otherwise it is already due.
  lemma DueLater(now: nat, timeout: nat)
    requires now < U64 && 0 < timeout < U64
    ensures Wrap64(now + timeout) > now <==> now + timeout < U64
  {
  }

  // The fields of an nd_timer around its embedded rb_node.
  class Timer {
    var periodic: bool
    var timeout: nat
    var callback: bool
    var expire: nat

    constructor (periodic: bool, timeout: nat)
      ensures this.periodic == periodic && this.timeout == timeout && callback
    {
      this.periodic := periodic;
      this.timeout := timeout;
      this.callback := true;
      this.expire := 0;
    }
  }

  type Node = RbNode<Timer>

  // The expiry times of ts, in order.
  ghost function Dues(ts: seq<Node>): (es: seq<nat>)
    reads set t | t in ts :: t.entry
    ensures |es| == |ts| && forall i | 0 <= i < |ts| :: es[i] == ts[i].entry.expire
  {
    if ts == [] then [] else [ts[0].entry.expire] + Dues(ts[1..])
  }

  // No two of ts share their fields.
  ghost predicate Distinct(ts: set<Node>) {
    forall m, n | m in ts && n in ts && m != n :: m.entry != n.entry
  }

  ghost predicate Ascending(es: seq<nat>) {
    forall i, j | 0 <= i <= j < |es| :: es[i] <= es[j]
  }

  // Index k comes after everything up to e and before everything later.
  ghost predicate Splits(es: seq<nat>, k: nat, e: nat) {
    && k <= |es|
    && (forall i | 0 <= i < k :: es[i] <= e)
    && (forall i | k <= i < |es| :: es[i] > e)
  }

  lemma InsertAscending(es: seq<nat>, k: nat, e: nat)
    requires Ascending(es) && Splits(es, k, e)
    ensures Ascending(es[..k] + [e] + es[k..])
  {
    var fs := es[..k] + [e] + es[k..];
    forall i, j | 0 <= i <= j < |fs| ensures fs[i] <= fs[j] {
      assert i < k ==> fs[i] == es[i];
      assert i > k ==> fs[i] == es[i - 1];
      assert j < k ==> fs[j] == es[j];
      assert j > k ==> fs[j] == es[j - 1];
    }
  }

  lemma DuesConcat(ts: seq<Node>, us: seq<Node>)
    ensures Dues(ts + us) == Dues(ts) + Dues(us)
  {
  }

  lemma DuesSplit(ts: seq<Node>, k: nat)
    requires k <= |ts|
    ensures Dues(ts[..k]) == Dues(ts)[..k] && Dues(ts[k..]) == Dues(ts)[k..]
  {
    assert ts == ts[..k] + ts[k..];
    DuesConcat(ts[..k], ts[k..]);
  }

  lemma DuesInsert(ts: seq<Node>, k: nat, t: Node)
    requires k <= |ts|
    ensures Dues(ts[..k] + [t] + ts[k..]) == Dues(ts)[..k] + [t.entry.expire] + Dues(ts)[k..]
  {
    DuesConcat(ts[..k] + [t], ts[k..]);
    DuesConcat(ts[..k], [t]);
    DuesSplit(ts, k);
  }

  lemma DuesRemove(ts: seq<Node>, k: nat)
    requires k < |ts|
    ensures Dues(ts[..k] + ts[k + 1..]) == Dues(ts)[..k] + Dues(ts)[k + 1..]
  {
    DuesConcat(ts[..k], ts[k + 1..]);
    DuesSplit(ts, k);
    DuesSplit(ts, k + 1);
  }

  lemma RemoveAscending(es: seq<nat>, k: nat)
    requires Ascending(es) && k < |es|
    ensures Ascending(es[..k] + es[k + 1..])
  {
    var fs := es[..k] + es[k + 1..];
    forall i, j | 0 <= i <= j < |fs| ensures fs[i] <= fs[j] {
      assert fs[i] == es[if i < k then i else i + 1] && fs[j] == es[if j < k then j else j + 1];
    }
  }

  lemma SplitsMeans(es: seq<nat>, k: nat, e: nat)
    requires Splits(es, k, e)
    ensures (forall i | 0 <= i < k :: es[i] <= e) && (forall i | k <= i < |es| :: es[i] > e)
  {
  }

  // ts without t.
  ghost function Drop(ts: seq<Node>, t: Node): seq<Node> {
    if ts == [] then [] else if ts[0] == t then ts[1..] else [ts[0]] + Drop(ts[1..], t)
  }

  lemma {:induction false} DropAt(ts: seq<Node>, k: nat)
    requires k < |ts| && forall j | 0 <= j < k :: ts[j] != ts[k]
    ensures Drop(ts, ts[k]) == ts[..k] + ts[k + 1..]
  {
    if k > 0 {
      var r := ts[1..];
      assert r[k - 1] == ts[k] && forall j | 0 <= j < k - 1 :: r[j] == ts[j + 1];
      DropAt(r, k - 1);
      assert r[k..] == ts[k + 1..] && ts[..k] == [ts[0]] + r[..k - 1];
    }
  }

  lemma {:induction false} DropNone(ts: seq<Node>, t: Node)
    requires t !in ts
    ensures Drop(ts, t) == ts
  {
    if ts != [] {
      assert forall u | u in ts[1..] :: u in ts;
      DropNone(ts[1..], t);
    }
  }

  // after is before with t put behind everything due no later and ahead of everything due later.
  ghost predicate Stable(before: seq<Node>, after: seq<Node>, t: Node)
    reads set u | u in before :: u.entry, t.entry
  {
    exists k {:trigger before[..k]} | 0 <= k <= |before| ::
      && after == before[..k] + [t] + before[k..]
      && (forall i | 0 <= i < k :: before[i].entry.expire <= t.entry.expire)
      && (forall i | k <= i < |before| :: before[i].entry.expire > t.entry.expire)
  }

  // ----- How much work is due by now

  ghost function Overdue(e: nat, now: nat): nat {
    if e <= now then now - e + 1 else 0
  }

  ghost function Work(es: seq<nat>, now: nat): nat {
    if es == [] then 0 else Overdue(es[0], now) + Work(es[1..], now)
  }

  lemma {:induction false} WorkConcat(es: seq<nat>, fs: seq<nat>, now: nat)
    ensures Work(es + fs, now) == Work(es, now) + Work(fs, now)
  {
    if es == [] {
      assert es + fs == fs;
    } else {
      WorkConcat(es[1..], fs, now);
      assert (es + fs)[1..] == es[1..] + fs;
    }
  }

  lemma WorkInsert(es: seq<nat>, k: nat, e: nat, now: nat)
    requires k <= |es|
    ensures Work(es[..k] + [e] + es[k..], now) == Work(es, now) + Overdue(e, now)
  {
    WorkConcat(es[..k] + [e], es[k..], now);
    WorkConcat(es[..k], [e], now);
    WorkConcat(es[..k], es[k..], now);
    assert es[..k] + es[k..] == es;
  }

  lemma WorkRemove(es: seq<nat>, k: nat, now: nat)
    requires k < |es|
    ensures Work(es[..k] + es[k + 1..], now) + Overdue(es[k], now) == Work(es, now)
  {
    WorkInsert(es[..k] + es[k + 1..], k, es[k], now);
    var fs := es[..k] + es[k + 1..];
    assert fs[..k] == es[..k] && fs[k..] == es[k + 1..];
    assert es == fs[..k] + [es[k]] + fs[k..];
  }

  datatype Result = EOK | EINVAL

  // What a callback may do to the queue.
  datatype Op = StartTimer(t: Node) | StopTimer(t: Node)

  datatype Firing = Firing(t: Node, at: nat)

  // The expiry times for which t fired, in firing order.
  ghost function Times(fired: seq<Firing>, t: Node): seq<nat> {
    if fired == [] then []
    else Times(fired[..|fired| - 1], t) + if fired[|fired| - 1].t == t then [fired[|fired| - 1].at] else []
  }

  lemma TimesAppend(fired: seq<Firing>, f: Firing, t: Node)
    ensures Times(fired + [f], t) == Times(fired, t) + if f.t == t then [f.at] else []
  {
    assert (fired + [f])[..|fired|] == fired;
  }

  // What the callbacks of a firing sequence do: the k-th firing performs calls[k].
  function CallAt(calls: seq<seq<Op>>, k: nat): (ops: seq<Op>) {
    if k < |calls| then calls[k] else []
  }

  ghost predicate Touches(ops: seq<Op>, t: Node) {
    exists i | 0 <= i < |ops| :: ops[i].t == t
  }

  ghost predicate TouchedBy(calls: seq<seq<Op>>, t: Node) {
    exists k | 0 <= k < |calls| :: Touches(calls[k], t)
  }

  // Where one timer stands: whether it is queued, and its expiry time.
  datatype Stand = Stand(queued: bool, expire: nat)

  // A due timer fires.
  ghost function Fire(s: Stand, periodic: bool, d: nat): Stand {
    if periodic then Stand(true, s.expire + d) else Stand(false, s.expire)
  }

  // From standing at s0 a timer that only the expiry loop touches has fired at times, and now stands at s.
  ghost predicate Tracked(s0: Stand, s: Stand, times: seq<nat>, periodic: bool, d: nat, now: nat) {
    if !s0.queued then times == [] && s == s0
    else if periodic then
      && times == Series(s0.expire, d, |times|) && s == Stand(true, s0.expire + |times| * d)
      && (|times| > 0 ==> s0.expire + (|times| - 1) * d <= now)
    else if s.queued then times == [] && s == s0
    else times == [s0.expire] && s == Stand(false, s0.expire) && s0.expire <= now
  }

  // The timer is done with everything due by now.
  ghost predicate Settled(s0: Stand, s: Stand, times: seq<nat>, periodic: bool, d: nat, now: nat)
    requires d > 0
  {
    if !s0.queued || s0.expire > now then times == [] && s == s0
    else if periodic then
      var n := (now - s0.expire) / d + 1;
      times == Series(s0.expire, d, n) && s == Stand(true, s0.expire + n * d)
    else times == [s0.expire] && s == Stand(false, s0.expire)
  }

  lemma TrackFire(s0: Stand, s: Stand, times: seq<nat>, periodic: bool, d: nat, now: nat)
    requires Tracked(s0, s, times, periodic, d, now) && s.queued && s.expire <= now
    ensures Tracked(s0, Fire(s, periodic, d), times + [s.expire], periodic, d, now)
  {
    if periodic {
      var n := |times|;
      assert (n + 1) * d == n * d + d;
      assert times + [s.expire] == Series(s0.expire, d, n + 1);
    }
  }

  lemma TrackEnds(s0: Stand, s: Stand, times: seq<nat>, periodic: bool, d: nat, now: nat)
    requires Tracked(s0, s, times, periodic, d, now) && d > 0
    requires s.queued ==> s.expire > now
    ensures Settled(s0, s, times, periodic, d, now)
  {
    if s0.queued && periodic {
      if s0.expire <= now {
        CountDue(s0.expire, d, now, |times|);
      } else if |times| > 0 {
        MulAtMost(0, |times| - 1, d);
      }
    }
  }

  // The multiples of d from e on that are due by now.
  ghost function Series(e: nat, d: nat, n: nat): (s: seq<nat>)
    ensures |s| == n && forall i | 0 <= i < n :: s[i] == e + i * d
  {
    seq(n, i requires 0 <= i < n => e + i * d)
  }

  lemma CountDue(e: nat, d: nat, now: nat, n: nat)
    requires d > 0 && e <= now && n > 0 && e + (n - 1) * d <= now < e + n * d
    ensures n == (now - e) / d + 1
  {
    var x, q := now - e, (now - e) / d;
    assert q * d <= x < q * d + d;
    if q < n - 1 {
      MulAtMost(q + 1, n - 1, d);
    } else if n - 1 < q {
      MulAtMost(n, q, d);
    }
  }

  lemma MulAtMost(a: nat, b: nat, d: nat)
    requires a <= b
    ensures a * d <= b * d
  {
  }

  class Queue {
    const root: RbRoot<Timer>
    ghost var timers: set<Node>

    constructor ()
      ensures Valid() && timers == {} && root.order == []
    {
      root := new RbRoot<Timer>();
      timers := {};
    }

    // nd_timer_init on fresh storage: the timer is known and disarmed, unless it has no callback or no timeout.
    method Init(periodic: bool, timeout: nat, callback: bool) returns (r: Result, t: RbNode?<Timer>)
      requires Valid()
      modifies this
      ensures Valid() && root.nodes == old(root.nodes) && Due() == old(Due())
      ensures r == EOK <==> callback && timeout > 0
      ensures if r == EINVAL then t == null && timers == old(timers)
              else t != null && fresh(t) && timers == old(timers) + {t} && t !in root.nodes && t.entry.timeout == timeout > 0 && t.entry.periodic == periodic
    {
      if !callback || timeout == 0 {
        return EINVAL, null;
      }
      var timer := new Timer(periodic, timeout);
      t := new RbNode<Timer>(timer);
      timers := timers + {t};
      Known(t);
      r := EOK;
    }

    twostate lemma Known(new t: Node)
      requires old(Valid()) && timers == old(timers) + {t}
      requires !old(allocated(t)) && t.parent == t && forall u <- old(timers) :: u.entry != t.entry
      requires root.nodes == old(root.nodes) && root.order == old(root.order) && unchanged(root, root.nodes, old(timers), old(Entries()))
      ensures Valid() && Due() == old(Due())
    {
      assert root.Valid();
      forall i | 0 <= i < |root.order| ensures Due()[i] == old(Due())[i] {
        assert root.Placed(i);
      }
    }

    ghost function Entries(): set<Timer>
      reads this
    {
      set n | n in timers :: n.entry
    }

    lemma OrderInNodes()
      requires root.InOrder()
      ensures forall t | t in root.order :: t in root.nodes
    {
      forall t | t in root.order ensures t in root.nodes {
        var i :| 0 <= i < |root.order| && root.order[i] == t;
        assert root.Placed(i);
      }
    }

    // The expiry times of the queued timers, in queue order.
    ghost function Due(): (es: seq<nat>)
      requires root.InOrder() && root.nodes <= timers
      reads this, root, root.nodes, Entries()
      ensures |es| == |root.order|
    {
      OrderInNodes();
      Dues(root.order)
    }

    // A timer outside the queue is marked by being its own parent.
    ghost predicate Marked()
      reads this, root, timers
    {
      forall t <- timers :: t in root.nodes || t.parent == t
    }

    ghost predicate Valid()
      reads this, root, timers, Entries()
    {
      && root.nodes <= timers && Distinct(timers)
      && root.Valid() && Marked()
      && Ascending(Due())
    }

    // The first link with everything up to e before it and everything later after it.
    method FindLink(e: nat) returns (parent: RbNode?<Timer>, s: Side, ghost k: nat)
      requires Valid()
      ensures root.OpenLink(parent, s) && root.Slot(parent, s) == k && Splits(Due(), k, e)
    {
      parent, s := null, Left;
      var link := root.node;
      ghost var hi := |root.order|;
      k := 0;
      while link != null
        invariant k <= hi <= |root.order|
        invariant if link == null then k == hi && root.OpenLink(parent, s) && root.Slot(parent, s) == k
                  else link in root.nodes && link.lo == k && link.hi == hi
        invariant forall i | 0 <= i < k :: Due()[i] <= e
        invariant forall i | hi <= i < |root.order| :: Due()[i] > e
        decreases hi - k
      {
        assert root.LocalLeft(link) && root.LocalRight(link) && root.LocalSpan(link);
        root.AtPosition(link, link.pos);
        parent := link;
        assert Due()[parent.pos] == parent.entry.expire;
        if parent.entry.expire > e {
          s, hi := Left, parent.pos;
        } else {
          s, k := Right, parent.pos + 1;
        }
        link := parent.Child(s);
      }
    }

    twostate lemma Inserted(p: (Node, nat))
      requires old(Valid() && p.0 in timers && p.0 !in root.nodes) && root.Valid() && timers == old(timers)
      requires Splits(old(Due()), p.1, p.0.entry.expire) && p.1 <= |old(root.order)|
      requires root.nodes == old(root.nodes) + {p.0}
      requires root.order == old(root.order)[..p.1] + [p.0] + old(root.order)[p.1..]
      requires forall t <- timers :: t.entry.expire == old(t.entry.expire) && (t.parent == old(t.parent) || t in root.nodes)
      ensures Valid() && Due() == old(Due())[..p.1] + [p.0.entry.expire] + old(Due())[p.1..]
    {
      var (t, k) := p;
      assert Dues(old(root.order)) == old(Due()) by {
        forall i | 0 <= i < |old(root.order)| ensures Dues(old(root.order))[i] == old(Due())[i] {
          assert old(root.Placed(i));
        }
      }
      DuesInsert(old(root.order), k, t);
      InsertAscending(old(Due()), k, t.entry.expire);
    }

    method NodeInsert(t: Node) returns (ghost k: nat)
      requires Valid() && t in timers && t !in root.nodes
      modifies root, t, root.nodes
      ensures Valid() && root.nodes == old(root.nodes) + {t}
      ensures Splits(old(Due()), k, t.entry.expire) && root.order == old(root.order)[..k] + [t] + old(root.order)[k..]
      ensures Due() == old(Due())[..k] + [t.entry.expire] + old(Due())[k..]
    {
      var parent, s;
      parent, s, k := FindLink(t.entry.expire);
      root.Insert(t, parent, s);
      Inserted((t, k));
    }

    twostate lemma Removed(p: (Node, nat))
      requires old(Valid() && p.0 in root.nodes) && root.Valid() && timers == old(timers)
      requires p.1 < |old(root.order)| && p.0.parent == p.0
      requires root.nodes == old(root.nodes) - {p.0}
      requires root.order == old(root.order)[..p.1] + old(root.order)[p.1 + 1..]
      requires forall t <- timers :: t.entry.expire == old(t.entry.expire) && (t.parent == old(t.parent) || t in root.nodes || t == p.0)
      ensures Valid() && Due() == old(Due())[..p.1] + old(Due())[p.1 + 1..]
    {
      var (t, k) := p;
      assert Dues(old(root.order)) == old(Due()) by {
        forall i | 0 <= i < |old(root.order)| ensures Dues(old(root.order))[i] == old(Due())[i] {
          assert old(root.Placed(i));
        }
      }
      DuesRemove(old(root.order), k);
      RemoveAscending(old(Due()), k);
    }

    method Remove(t: Node) returns (ghost k: nat)
      requires Valid() && t in timers
      modifies root, root.nodes
      ensures Valid() && root.nodes == old(root.nodes) - {t}
      ensures root.order == Drop(old(root.order), t) && (t !in old(root.nodes) ==> root.order == old(root.order))
      ensures t in old(root.nodes) ==> k < |old(root.order)| && old(root.order)[k] == t
      ensures t in old(root.nodes) ==> root.order == old(root.order)[..k] + old(root.order)[k + 1..]
      ensures t in old(root.nodes) ==> Due() == old(Due())[..k] + old(Due())[k + 1..]
    {
      k := 0;
      if t in root.nodes { root.LinkedNotCleared(t); }
      if t.parent == t {
        NotInOrder(t);
        return;
      }
      FirstPlace(t);
      k := t.pos;
      root.AtPosition(t, k);
      root.Erase(t);
      root.ClearNode(t);
      Removed((t, k));
    }

    lemma NotInOrder(t: Node)
      requires root.InOrder() && t !in root.nodes
      ensures Drop(root.order, t) == root.order
    {
      OrderInNodes();
      DropNone(root.order, t);
    }

    // A queued timer is in the order once.
    lemma FirstPlace(t: Node)
      requires root.InOrder() && t in root.nodes
      ensures t.pos < |root.order| && Drop(root.order, t) == root.order[..t.pos] + root.order[t.pos + 1..]
    {
      assert root.Indexed(t);
      forall j | 0 <= j < t.pos ensures root.order[j] != root.order[t.pos] {
        assert root.Placed(j) && root.Placed(t.pos);
      }
      DropAt(root.order, t.pos);
    }

    // Giving a timer outside the queue another expiry changes nothing in the queue.
    twostate lemma Retimed(t: Node)
      requires old(Valid()) && t in timers && t !in root.nodes && timers == old(timers)
      requires root.nodes == old(root.nodes) && root.order == old(root.order) && root.Valid() && Marked()
      requires forall u <- timers | u != t :: u.entry.expire == old(u.entry.expire)
      ensures Valid() && Due() == old(Due())
    {
      forall i | 0 <= i < |root.order| ensures Due()[i] == old(Due())[i] {
        assert root.Placed(i);
      }
    }

    method SetExpire(t: Node, e: nat)
      requires Valid() && t in timers && t !in root.nodes
      modifies t.entry`expire
      ensures Valid() && Due() == old(Due()) && t.entry.expire == e
    {
      t.entry.expire := e;
      Retimed(t);
    }

    // Queues t, which is outside the queue, to expire at e.
    method Enqueue(t: Node, e: nat, ghost now: nat)
      requires Valid() && t in timers && t !in root.nodes
      modifies root, root.nodes, t, t.entry`expire
      ensures Valid() && root.nodes == old(root.nodes) + {t} && t.entry.expire == e
      ensures Stable(old(root.order), root.order, t)
      ensures Work(Due(), now) == old(Work(Due(), now)) + Overdue(e, now)
    {
      SetExpire(t, e);
      ghost var due, order := Due(), root.order;
      ghost var k := NodeInsert(t);
      WorkInsert(due, k, e, now);
      StablyIn((order, due, t, k));
    }

    twostate lemma StablyIn(p: (seq<Node>, seq<nat>, Node, nat))
      requires |p.0| == |p.1| && p.3 <= |p.0| && Splits(p.1, p.3, p.2.entry.expire)
      requires Valid() && root.order == p.0[..p.3] + [p.2] + p.0[p.3..] && Due() == p.1[..p.3] + [p.2.entry.expire] + p.1[p.3..]
      ensures Stable(p.0, root.order, p.2)
    {
      hide Splits, Drop, Dues, Ascending, Marked, Distinct;
      var (order, due, t, k) := p;
      forall i | 0 <= i < |order| ensures order[i].entry.expire == due[i] {
        var j := if i < k then i else i + 1;
        DueAt(j);
        assert root.order[j] == order[i] && Due()[j] == due[i];
      }
      SplitsMeans(due, k, t.entry.expire);
      assert order[..k] == order[..k];
    }

    lemma DueAt(j: nat)
      requires Valid() && j < |root.order|
      ensures Due()[j] == root.order[j].entry.expire
    {
    }

    // nd_timer_stop: disarms t.
    method Stop(t: Node, ghost now: nat)
      requires Valid() && t in timers
      modifies root, root.nodes
      ensures Valid() && root.nodes == old(root.nodes) - {t} && root.order == Drop(old(root.order), t)
      ensures Work(Due(), now) + (if t in old(root.nodes) then Overdue(t.entry.expire, now) else 0) == old(Work(Due(), now))
    {
      ghost var k := Remove(t);
      if t in old(root.nodes) { WorkRemove(old(Due()), k, now); }
    }

    lemma EntriesApart(t: Node)
      requires Valid() && t in timers
      ensures forall u <- timers | u != t :: u.entry != t.entry
    {
    }

    method Rearm(t: Node, e: nat, ghost now: nat)
      requires Valid() && t in timers
      modifies root, root.nodes, t, t.entry`expire
      ensures Valid() && root.nodes == old(root.nodes) + {t} && t.entry.expire == e
      ensures Stable(Drop(old(root.order), t), root.order, t)
      ensures Work(Due(), now) <= old(Work(Due(), now)) + Overdue(e, now)
    {
      hide Drop, Stable, Work, Dues;
      Stop(t, now);
      Enqueue(t, e, now);
    }

    // nd_timer_start: (re)arms t to expire timeout ticks from now, on the 64-bit clock.
    method Start(t: Node, now: nat) returns (r: Result)
      requires Valid() && t in timers
      modifies root, root.nodes, t, t.entry`expire
      ensures Valid()
      ensures r == if t.entry.callback then EOK else EINVAL
      ensures r == EINVAL ==> root.nodes == old(root.nodes) && Due() == old(Due()) && t.entry.expire == old(t.entry.expire)
      ensures r == EOK ==> root.nodes == old(root.nodes) + {t} && t.entry.expire == Wrap64(now + old(t.entry.timeout))
      ensures r == EOK ==> Stable(Drop(old(root.order), t), root.order, t)
      ensures forall u | u in timers && u != t :: u.entry.expire == old(u.entry.expire)
      ensures Work(Due(), now) <= old(Work(Due(), now)) + if r == EOK then Overdue(t.entry.expire, now) else 0
    {
      hide Valid, Drop, Stable, Work, Dues;
      EntriesApart(t);
      if !t.entry.callback {
        return EINVAL;
      }
      Rearm(t, Wrap64(now + t.entry.timeout), now);
      return EOK;
    }

    // ----- nd_timer_process

    // Timeouts are positive and do not carry the clock past its range.
    ghost predicate InRange(t: Node, now: nat)
      reads t.entry
    {
      0 < t.entry.timeout && now + t.entry.timeout < U64
    }

    // One round of the expiry loop up to the callback: t is the timer that fired, or null when nothing is due.
    method ExpireFirst(now: nat) returns (t: RbNode?<Timer>)
      requires Valid() && forall u <- timers | u.entry.periodic :: InRange(u, now)
      modifies root, root.nodes, Entries()`expire
      ensures Valid()
      ensures t == null ==> root.nodes == old(root.nodes) && forall u <- root.nodes :: u.entry.expire > now
      ensures t == null ==> forall u <- timers :: u.entry.expire == old(u.entry.expire)
      ensures t != null ==> t in old(root.nodes) && old(t.entry.expire) <= now
      ensures t != null ==> forall u <- old(root.nodes) :: old(t.entry.expire) <= old(u.entry.expire)
      ensures t != null ==> root.nodes == if t.entry.periodic then old(root.nodes) else old(root.nodes) - {t}
      ensures t != null ==> t.entry.expire == old(t.entry.expire) + if t.entry.periodic then t.entry.timeout else 0
      ensures t != null ==> forall u <- timers | u != t :: u.entry.expire == old(u.entry.expire)
      ensures t != null ==> Work(Due(), now) < old(Work(Due(), now))
    {
      t := root.First();
      FirstDue();
      if t == null || now < t.entry.expire {
        t := null;
        return;
      }
      TakeOut(t, now);
    }

    // Takes the due timer t out of the queue, and puts a periodic one back a period later.
    method TakeOut(t: Node, now: nat)
      requires Valid() && t in root.nodes && t.entry.expire <= now && (t.entry.periodic ==> InRange(t, now))
      modifies root, root.nodes, t.entry`expire
      ensures Valid() && root.nodes == if t.entry.periodic then old(root.nodes) else old(root.nodes) - {t}
      ensures t.entry.expire == old(t.entry.expire) + if t.entry.periodic then t.entry.timeout else 0
      ensures Work(Due(), now) < old(Work(Due(), now))
    {
      hide Drop, Stable, Work, Dues;
      ghost var before, after := Overdue(t.entry.expire, now), Overdue(t.entry.expire + t.entry.timeout, now);
      Stop(t, now);
      if t.entry.periodic {
        var e := Wrap64(t.entry.expire + t.entry.timeout);
        assert e == t.entry.expire + t.entry.timeout && after < before;
        Enqueue(t, e, now);
      }
    }

    ghost function StandOf(t: Node): Stand
      reads this, root, t.entry
    {
      Stand(t in root.nodes, t.entry.expire)
    }

    // One call a callback makes.
    method Perform(op: Op, now: nat)
      requires Valid() && op.t in timers && InRange(op.t, now)
      modifies root, root.nodes, op.t, op.t.entry`expire
      ensures Valid()
      ensures forall u <- timers | u != op.t :: StandOf(u) == old(StandOf(u))
      ensures op.t in root.nodes ==> op.t.entry.expire > now || StandOf(op.t) == old(StandOf(op.t))
      ensures Work(Due(), now) <= old(Work(Due(), now))
    {
      match op
      case StartTimer(t) => var _ := Start(t, now);
      case StopTimer(t) => Stop(t, now);
    }

    ghost predicate Later(ops: seq<Op>, now: nat)
      reads this, Entries()
    {
      forall i | 0 <= i < |ops| :: ops[i].t in timers && InRange(ops[i].t, now)
    }

    // The body of a callback: it starts and stops timers.
    method RunOps(ops: seq<Op>, now: nat)
      requires Valid() && Later(ops, now)
      modifies root, timers, Entries()`expire
      ensures Valid()
      ensures forall u <- timers | !Touches(ops, u) :: StandOf(u) == old(StandOf(u))
      ensures forall u <- root.nodes :: u.entry.expire > now || StandOf(u) == old(StandOf(u))
      ensures Work(Due(), now) <= old(Work(Due(), now))
    {
      hide Drop, Stable, Work, Dues;
      for i := 0 to |ops|
        invariant Valid() && Later(ops, now)
        invariant forall u <- timers | !Touches(ops, u) :: StandOf(u) == old(StandOf(u))
        invariant forall u <- root.nodes :: u.entry.expire > now || StandOf(u) == old(StandOf(u))
        invariant Work(Due(), now) <= old(Work(Due(), now))
      {
        assert InRange(ops[i].t, now);
        Perform(ops[i], now);
      }
    }

    // One round of the expiry loop: a timer fires and its callback, if it has one, performs ops.
    method Round(now: nat, ops: seq<Op>) returns (t: RbNode?<Timer>)
      requires Valid() && Later(ops, now) && forall u <- timers | u.entry.periodic :: InRange(u, now)
      modifies root, timers, Entries()`expire
      ensures Valid()
      ensures t == null ==> forall u <- root.nodes :: u.entry.expire > now
      ensures t == null ==> forall u <- timers :: StandOf(u) == old(StandOf(u))
      ensures t != null ==> t in old(root.nodes) && old(t.entry.expire) <= now
      ensures t != null ==> forall u <- old(root.nodes) :: old(t.entry.expire) <= old(u.entry.expire)
      ensures t != null ==> forall u <- root.nodes :: old(t.entry.expire) <= u.entry.expire
      ensures t != null ==> forall u <- timers | !Touches(ops, u) ::
        StandOf(u) == if u == t then Fire(old(StandOf(u)), u.entry.periodic, u.entry.timeout) else old(StandOf(u))
      ensures t != null ==> Work(Due(), now) < old(Work(Due(), now))
    {
      hide Drop, Stable, Work, Dues;
      t := ExpireFirst(now);
      if t != null && t.entry.callback {
        RunOps(ops, now);
      }
    }

    ghost function Stands(): (m: map<Node, Stand>)
      reads this, root, Entries()
      ensures m.Keys == timers && forall u <- timers :: m[u] == StandOf(u)
    {
      map u | u in timers :: StandOf(u)
    }

    ghost predicate AllTracked(stands: map<Node, Stand>, fired: seq<Firing>, calls: seq<seq<Op>>, now: nat)
      requires stands.Keys == timers
      reads this, root, Entries()
    {
      forall u | u in timers && !TouchedBy(calls, u) :: Tracked(stands[u], StandOf(u), Times(fired, u), u.entry.periodic, u.entry.timeout, now)
    }

    twostate lemma RoundTracked(p: (Node, seq<Op>, map<Node, Stand>, seq<Firing>, seq<seq<Op>>, nat))
      requires timers == old(timers) && p.2.Keys == timers && p.0 in timers && old(StandOf(p.0)).queued && old(p.0.entry.expire) <= p.5
      requires old(AllTracked(p.2, p.3, p.4, p.5))
      requires forall u <- timers :: u.entry.periodic == old(u.entry.periodic) && u.entry.timeout == old(u.entry.timeout)
      requires forall u | Touches(p.1, u) :: TouchedBy(p.4, u)
      requires forall u <- timers | !Touches(p.1, u) ::
        StandOf(u) == if u == p.0 then Fire(old(StandOf(u)), u.entry.periodic, u.entry.timeout) else old(StandOf(u))
      ensures AllTracked(p.2, p.3 + [Firing(p.0, old(p.0.entry.expire))], p.4, p.5)
    {
      var (t, ops, stands, fired, calls, now) := p;
      var f := Firing(t, old(t.entry.expire));
      forall u | u in timers && !TouchedBy(calls, u)
        ensures Tracked(stands[u], StandOf(u), Times(fired + [f], u), u.entry.periodic, u.entry.timeout, now)
      {
        TimesAppend(fired, f, u);
        if u == t {
          TrackFire(stands[u], old(StandOf(u)), Times(fired, u), u.entry.periodic, u.entry.timeout, now);
        }
      }
    }

    static ghost predicate InOrder(fired: seq<Firing>, now: nat) {
      forall i, j | 0 <= i <= j < |fired| :: fired[i].at <= fired[j].at <= now
    }

    static lemma OneLater(fired: seq<Firing>, f: Firing, now: nat)
      requires InOrder(fired, now) && f.at <= now && (fired != [] ==> fired[|fired| - 1].at <= f.at)
      ensures InOrder(fired + [f], now)
    {
    }

    ghost predicate InTurn(fired: seq<Firing>, now: nat)
      reads this, root, Entries()
    {
      && InOrder(fired, now)
      && (fired != [] ==> forall u <- root.nodes :: u in timers ==> fired[|fired| - 1].at <= u.entry.expire)
    }

    ghost predicate Ready(now: nat)
      reads this, Entries()
    {
      forall u <- timers :: u.entry.periodic ==> InRange(u, now)
    }

    // A round with the account of what has fired so far.
    method NextRound(now: nat, ops: seq<Op>, ghost stands: map<Node, Stand>, ghost fired: seq<Firing>, ghost calls: seq<seq<Op>>)
      returns (more: bool, ghost fired': seq<Firing>)
      requires Valid() && Later(ops, now) && Ready(now)
      requires stands.Keys == timers && InTurn(fired, now) && AllTracked(stands, fired, calls, now)
      requires forall u | Touches(ops, u) :: TouchedBy(calls, u)
      modifies root, timers, Entries()`expire
      ensures Valid() && InTurn(fired', now) && AllTracked(stands, fired', calls, now)
      ensures |fired'| == |fired| + if more then 1 else 0
      ensures if more then Work(Due(), now) < old(Work(Due(), now)) else forall u <- root.nodes :: u.entry.expire > now
    {
      hide Tracked, Drop, Stable, Dues, Work, InOrder;
      var t := Round(now, ops);
      more, fired' := t != null, fired;
      if t != null {
        RoundTracked((t, ops, stands, fired, calls, now));
        OneLater(fired, Firing(t, old(t.entry.expire)), now);
        fired' := fired + [Firing(t, old(t.entry.expire))];
      }
    }

    ghost predicate AllLater(calls: seq<seq<Op>>, now: nat)
      reads this, Entries()
    {
      forall k | 0 <= k < |calls| :: Later(calls[k], now)
    }

    ghost predicate AllSettled(stands: map<Node, Stand>, fired: seq<Firing>, calls: seq<seq<Op>>, now: nat)
      requires stands.Keys == timers
      reads this, root, Entries()
    {
      forall u | u in timers && !TouchedBy(calls, u) && u.entry.timeout > 0 ::
        Settled(stands[u], StandOf(u), Times(fired, u), u.entry.periodic, u.entry.timeout, now)
    }

    lemma AllEnd(stands: map<Node, Stand>, fired: seq<Firing>, calls: seq<seq<Op>>, now: nat)
      requires stands.Keys == timers && AllTracked(stands, fired, calls, now) && forall u <- root.nodes :: u.entry.expire > now
      ensures AllSettled(stands, fired, calls, now)
    {
      forall u | u in timers && !TouchedBy(calls, u) && u.entry.timeout > 0
        ensures Settled(stands[u], StandOf(u), Times(fired, u), u.entry.periodic, u.entry.timeout, now)
      {
        TrackEnds(stands[u], StandOf(u), Times(fired, u), u.entry.periodic, u.entry.timeout, now);
      }
    }

    lemma AtCall(calls: seq<seq<Op>>, k: nat, now: nat)
      requires AllLater(calls, now)
      ensures Later(CallAt(calls, k), now)
      ensures forall u | Touches(CallAt(calls, k), u) :: TouchedBy(calls, u)
    {
    }

    twostate lemma StillLater(p: (seq<seq<Op>>, nat))
      requires old(AllLater(p.0, p.1)) && timers == old(timers)
      requires forall u <- timers :: u.entry.timeout == old(u.entry.timeout) 
      ensures AllLater(p.0, p.1)
    {
      forall k | 0 <= k < |p.0| ensures Later(p.0[k], p.1) {
        assert old(Later(p.0[k], p.1));
        forall i | 0 <= i < |p.0[k]| ensures p.0[k][i].t in timers && InRange(p.0[k][i].t, p.1) {
          assert old(InRange(p.0[k][i].t, p.1));
        }
      }
    }

    // The account so far, before or after a round.
    ghost predicate Account(stands: map<Node, Stand>, fired: seq<Firing>, calls: seq<seq<Op>>, now: nat)
      reads this, root, timers, Entries()
    {
      && Valid() && Ready(now) && AllLater(calls, now)
      && InTurn(fired, now) && stands.Keys == timers && AllTracked(stands, fired, calls, now)
    }

    method AccountRound(now: nat, calls: seq<seq<Op>>, k: nat, ghost stands: map<Node, Stand>, ghost fired: seq<Firing>)
      returns (more: bool, ghost fired': seq<Firing>)
      requires Account(stands, fired, calls, now)
      modifies root, timers, Entries()`expire
      ensures Account(stands, fired', calls, now)
      ensures Valid() && if more then Work(Due(), now) < old(Work(Due(), now)) else forall u <- root.nodes :: u.entry.expire > now
    {
      AtCall(calls, k, now);
      more, fired' := NextRound(now, CallAt(calls, k), stands, fired, calls);
      StillLater((calls, now));
    }

    // The expiry loop of nd_timer_process: fires everything due by now; the k-th firing's callback performs calls[k].
    method Expired(now: nat, calls: seq<seq<Op>>) returns (ghost fired: seq<Firing>)
      requires Valid() && Ready(now) && AllLater(calls, now)
      modifies root, timers, Entries()`expire
      ensures Valid() && forall u <- root.nodes :: u.entry.expire > now
      ensures InTurn(fired, now) && AllSettled(old(Stands()), fired, calls, now)
    {
      ghost var stands := Stands();
      fired := [];
      var k, more := 0, true;
      while more
        invariant Account(stands, fired, calls, now)
        invariant !more ==> forall u <- root.nodes :: u.entry.expire > now
        decreases more, if Account(stands, fired, calls, now) then Work(Due(), now) else 0
      {
        more, fired := AccountRound(now, calls, k, stands, fired);
        k := k + 1;
      }
      AllEnd(stands, fired, calls, now);
    }

    // The head of the queue expires first.
    lemma FirstDue()
      requires Valid()
      ensures root.order != [] ==> root.order[0] in root.nodes
      ensures forall u <- root.nodes :: root.order != [] && root.order[0].entry.expire <= u.entry.expire
    {
      if root.order != [] { assert root.Placed(0); }
      forall u <- root.nodes ensures root.order != [] && root.order[0].entry.expire <= u.entry.expire {
        assert root.Indexed(u);
        assert Due()[0] <= Due()[u.pos];
      }
    }
  }
}
