// Time slices: a thread that shares its priority runs for its whole slice, over any number of preemptions.
module Slices {
  const U64: nat := 0x1_0000_0000_0000_0000

  // now - start on the 64-bit clock
  function Elapsed(now: nat, start: nat): nat
    requires now < U64 && start < U64
  {
    if now >= start then now - start else now + U64 - start
  }

  // What happens to a thread: it is dispatched, with or without a ready peer of its priority; it is switched out, by a
  // rotation or otherwise; its slice timer fires; it starts or ends a delay.
  datatype Event = In(now: nat, peers: bool) | Out(now: nat, rotates: bool) | Fire(now: nat, peers: bool) | Delay(now: nat)

  // A thread's past: whether it is dispatched, since when it is being timed (0 if not), whether its slice timer is
  // pending, how long it has run against peers since its slice was last full, and when the last event was.
  datatype Past = Past(on: bool, from: nat, pending: bool, ran: nat, clock: nat)

  const Unused: Past := Past(false, 0, false, 0, 0)

  function Timed(from: nat, now: nat): nat { if from == 0 || now < from then 0 else now - from }

  function Then(total: nat, p: Past, e: Event): Past {
    match e
    case In(now, peers) =>
      if total == 0 then p.(on := true, clock := now)
      else if peers then Past(true, now, true, if p.ran >= total then 0 else p.ran, now)
      else Past(true, 0, false, 0, now)
    case Out(now, rotates) =>
      if total == 0 then p.(on := false, clock := now)
      else Past(false, 0, false, if rotates then 0 else p.ran + Timed(p.from, now), now)
    case Fire(now, peers) =>
      if peers then Past(p.on, 0, false, total, now) else p.(pending := false, clock := now)
    case Delay(now) =>
      if total == 0 then p.(clock := now) else Past(p.on, 0, false, 0, now)
  }

  // The clock does not run backwards or wrap; a thread is switched in and out in turn; a pending timer fires once.
  predicate May(p: Past, e: Event) {
    && p.clock <= e.now < U64
    && match e
       case In(_, _) => !p.on
       case Out(_, _) => p.on
       case Fire(_, _) => p.pending
       case Delay(_) => true
  }

  function After(total: nat, es: seq<Event>): Past
    decreases |es|
  {
    if es == [] then Unused else Then(total, After(total, es[..|es| - 1]), es[|es| - 1])
  }

  ghost predicate Happens(total: nat, es: seq<Event>) {
    forall i {:trigger es[i]} | 0 <= i < |es| :: May(After(total, es[..i]), es[i])
  }

  function Min(x: nat, y: nat): nat { if x < y then x else y }

  class Slice {
    // 0 for a thread without time slices.
    const total: nat
    var left: nat
    var start: nat
    // The slice timer, when armed, with the timeout it was armed for.
    var armed: bool
    var timeout: nat

    // What is left of the slice is what has not been run of it, and the timer is set to exactly that.
    ghost predicate Shows(p: Past)
      reads this
    {
      && left == total - Min(p.ran, total) && start == p.from <= p.clock < U64 && armed == p.pending
      && (armed ==> p.on && p.ran < total && timeout == total - p.ran)
    }

    constructor (total: nat)
      ensures this.total == total && Shows(Unused)
    {
      this.total, left, start, armed, timeout := total, total, 0, false, 0;
    }

    // The outgoing half of nd_context_switch_cb; a rotation has refilled the slice before, in nd_schedule_pick_next.
    method SwitchOut(now: nat, rotates: bool, ghost p: Past)
      requires Shows(p) && May(p, Out(now, rotates))
      modifies this
      ensures Shows(Then(total, p, Out(now, rotates)))
    {
      if total == 0 {
        return;
      }
      if rotates {
        left := total;
        start := 0;
      }
      if start != 0 && left != 0 {
        var elapsed := Elapsed(now, start);
        if elapsed >= left {
          left := 0;
        } else {
          left := left - elapsed;
        }
      }
      armed := false;
      start := 0;
    }

    // The incoming half: the slice is timed only while a peer is ready.
    method SwitchIn(now: nat, peers: bool, ghost p: Past)
      requires Shows(p) && May(p, In(now, peers))
      modifies this
      ensures Shows(Then(total, p, In(now, peers)))
    {
      if total != 0 && peers {
        if left == 0 || left > total {
          left := total;
        }
        timeout := left;
        start := now;
        armed := true;
      } else if total != 0 {
        armed := false;
        left := total;
        start := 0;
      }
    }

    // nd_thread_slice_timeout: the one-shot timer has fired; without a peer nothing else happens.
    method Expire(now: nat, peers: bool, ghost p: Past)
      requires Shows(p) && May(p, Fire(now, peers))
      modifies this
      ensures Shows(Then(total, p, Fire(now, peers)))
    {
      armed := false;
      if !peers {
        return;
      }
      left := 0;
      start := 0;
    }

    // A delay starts over, at its beginning and again at its end.
    method Refill(now: nat, ghost p: Past)
      requires Shows(p) && May(p, Delay(now))
      modifies this
      ensures Shows(Then(total, p, Delay(now)))
    {
      if total != 0 {
        armed := false;
        left := total;
        start := 0;
      }
    }

    // Whatever happens, the slice shows the thread's past.
    method Drive(es: seq<Event>)
      requires Shows(Unused) && Happens(total, es)
      modifies this
      ensures Shows(After(total, es))
    {
      for i := 0 to |es|
        invariant Shows(After(total, es[..i]))
      {
        ghost var p := After(total, es[..i]);
        assert es[..i + 1][..i] == es[..i];
        match es[i]
        case In(now, peers) => SwitchIn(now, peers, p);
        case Out(now, rotates) => SwitchOut(now, rotates, p);
        case Fire(now, peers) => Expire(now, peers, p);
        case Delay(now) => Refill(now, p);
      }
      assert es[..|es|] == es;
    }

    // Dispatched at from after any number of preemptions, the thread is timed for what is left of its slice: at the
    // moment its timer fires it has run for exactly the whole slice.
    method Quantum(runs: seq<Run>, from: nat)
      requires Shows(Unused) && InTurn(runs) && Sum(runs) < total && 0 < from < U64 && (runs != [] ==> runs[|runs| - 1].to <= from)
      modifies this
      ensures armed && start == from && Sum(runs + [Run(from, from + timeout)]) == total
    {
      PreemptedRan(total, runs);
      Drive(Preempted(runs));
      SwitchIn(from, true, After(total, Preempted(runs)));
      assert (runs + [Run(from, from + timeout)])[..|runs|] == runs;
    }
  }

  datatype Run = Run(from: nat, to: nat)

  // The events of a thread preempted by more urgent ones, again and again, with peers waiting.
  function Preempted(runs: seq<Run>): seq<Event>
    decreases |runs|
  {
    if runs == [] then [] else Preempted(runs[..|runs| - 1]) + [In(runs[|runs| - 1].from, true), Out(runs[|runs| - 1].to, false)]
  }

  function Sum(runs: seq<Run>): nat
    requires forall r | r in runs :: r.from <= r.to
    decreases |runs|
  {
    if runs == [] then 0 else Sum(runs[..|runs| - 1]) + (runs[|runs| - 1].to - runs[|runs| - 1].from)
  }

  ghost predicate InTurn(runs: seq<Run>) {
    && (forall i | 0 <= i < |runs| :: 0 < runs[i].from <= runs[i].to < U64)
    && (forall i, j | 0 <= i < j < |runs| :: runs[i].to <= runs[j].from)
  }

  // Short of its slice, a thread has run for the sum of its dispatches, and is dispatched for the rest.
  lemma {:induction false} PreemptedRan(total: nat, runs: seq<Run>)
    requires InTurn(runs) && Sum(runs) < total
    ensures Happens(total, Preempted(runs))
    ensures After(total, Preempted(runs)) == Past(false, 0, false, Sum(runs), if runs == [] then 0 else runs[|runs| - 1].to)
    decreases |runs|
  {
    if runs != [] {
      var rest, r := runs[..|runs| - 1], runs[|runs| - 1];
      PreemptedRan(total, rest);
      var es, all := Preempted(rest), Preempted(runs);
      assert all[..|es|] == es && all[..|es| + 1] == es + [In(r.from, true)] && (es + [In(r.from, true)])[..|es|] == es;
      assert all[..|all| - 1] == es + [In(r.from, true)];
      forall i {:trigger all[i]} | 0 <= i < |all| ensures May(After(total, all[..i]), all[i]) {
        if i < |es| { assert all[..i] == es[..i] && all[i] == es[i]; }
      }
    }
  }
}
