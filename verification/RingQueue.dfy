// The ring buffer of nd_queue: wrapping 32-bit indices, masked by a power-of-two depth.
module RingQueue {
  const U32: nat := 0x1_0000_0000

  // x & y
  function And(x: nat, y: nat): (r: nat)
    ensures r <= x && r <= y
  {
    if x == 0 || y == 0 then 0 else 2 * And(x / 2, y / 2) + if x % 2 == 1 && y % 2 == 1 then 1 else 0
  }

  ghost predicate PowerOfTwo(m: nat) {
    m == 1 || (m > 0 && m % 2 == 0 && PowerOfTwo(m / 2))
  }

  // The test in nd_queue_init accepts exactly the powers of two.
  lemma {:induction false} AcceptsPowers(m: nat)
    requires m >= 1
    ensures And(m, m - 1) == 0 <==> PowerOfTwo(m)
  {
    if m % 2 == 0 {
      assert (m - 1) / 2 == m / 2 - 1 && (m - 1) % 2 == 1;
      if m > 0 { AcceptsPowers(m / 2); }
    } else if m > 1 {
      assert (m - 1) / 2 == m / 2;
      AndSelf(m / 2);
    }
  }

  lemma {:induction false} AndSelf(x: nat)
    ensures And(x, x) == x
  {
    if x > 0 { AndSelf(x / 2); }
  }

  // Masking with a power of two less one is the remainder.
  lemma {:induction false} MaskIsRemainder(p: nat, m: nat)
    requires PowerOfTwo(m)
    ensures And(p, m - 1) == p % m
  {
    if m == 1 {
      assert And(p, 0) == 0;
    } else {
      var h := m / 2;
      MaskIsRemainder(p / 2, h);
      assert (m - 1) / 2 == h - 1 && (m - 1) % 2 == 1;
      assert And(p, m - 1) == 2 * And(p / 2, h - 1) + p % 2;
      HalfRemainder(p, h);
    }
  }

  lemma HalfRemainder(p: nat, h: nat)
    requires h > 0
    ensures p % (2 * h) == 2 * (p / 2 % h) + p % 2
  {
    var q, r := p / 2 / h, p / 2 % h;
    assert p / 2 == q * h + r;
    assert p == 2 * (q * h + r) + p % 2;
    assert p == q * (2 * h) + (2 * r + p % 2);
    RemainderIs(p, 2 * h, q, 2 * r + p % 2);
  }

  lemma RemainderIs(p: nat, m: nat, q: nat, r: nat)
    requires m > 0 && r < m && p == q * m + r
    ensures p % m == r && p / m == q
  {
    var q', r' := p / m, p % m;
    assert p == q' * m + r';
    if q < q' {
      MulAtMost(q + 1, q', m);
    } else if q' < q {
      MulAtMost(q' + 1, q, m);
    }
  }

  lemma MulAtMost(a: nat, b: nat, d: nat)
    requires a <= b
    ensures a * d <= b * d
  {
  }

  // 2^32 is a multiple of every power of two up to it.
  lemma {:induction false} PowersDivide(m: nat, n: nat)
    requires PowerOfTwo(m) && PowerOfTwo(n) && m <= n
    ensures n % m == 0
  {
    if m > 1 {
      PowersDivide(m / 2, n / 2);
      var q := n / 2 / (m / 2);
      assert n / 2 == q * (m / 2);
      assert n == q * m;
      RemainderIs(n, m, q, 0);
    }
  }

  lemma WidthIsPower()
    ensures PowerOfTwo(U32)
  {
    assert PowerOfTwo(0x1_0000) by { assert PowerOfTwo(0x100); }
    assert PowerOfTwo(0x100_0000);
  }

  lemma Regroup(q: nat, k: nat, m: nat, j: nat, r: nat)
    ensures q * (k * m) + j * m + r == (q * k + j) * m + r
  {
  }

  // Taking the remainder by a multiple first does not change the remainder.
  lemma RemainderOfMultiple(x: nat, w: nat, m: nat)
    requires m > 0 && w > 0 && w % m == 0
    ensures x % w % m == x % m
  {
    var q, k, y := x / w, w / m, x % w;
    var j, r := y / m, y % m;
    assert w == k * m by { Parts(w, m); }
    assert x == q * w + y by { Parts(x, w); }
    assert y == j * m + r by { Parts(y, m); }
    assert x == (q * k + j) * m + r by { Regroup(q, k, m, j, r); }
    RemainderIs(x, m, q * k + j, r);
  }

  lemma Parts(x: nat, m: nat)
    requires m > 0
    ensures x == (x / m) * m + x % m
  {
  }

  // Wrapping the index to 32 bits does not change the slot.
  lemma WrapKeepsSlot(x: nat, m: nat)
    requires PowerOfTwo(m) && m <= U32
    ensures x % U32 % m == x % m
  {
    WidthIsPower();
    PowersDivide(m, U32);
    RemainderOfMultiple(x, U32, m);
  }

  // Fewer than m apart, two indices do not share a slot.
  lemma SlotsDiffer(x: nat, y: nat, m: nat)
    requires m > 0 && x < y < x + m
    ensures x % m != y % m
  {
    var a, b := x / m, y / m;
    Parts(x, m);
    Parts(y, m);
    if b <= a { MulAtMost(b, a, m); } else { NextMultiple(a, b, m); }
  }

  lemma NextMultiple(a: nat, b: nat, m: nat)
    requires a < b
    ensures a * m + m <= b * m
  {
    MulAtMost(a + 1, b, m);
  }

  lemma SlotInside(i: nat, count: nat, size: nat)
    requires i < count
    ensures i * size + size <= count * size
  {
    NextMultiple(i, count, size);
  }

  lemma SlotsApart(i: nat, j: nat, size: nat)
    requires i != j
    ensures i * size + size <= j * size || j * size + size <= i * size
  {
    if i < j { NextMultiple(i, j, size); } else { NextMultiple(j, i, size); }
  }

  type Msg = seq<bv8>

  datatype Op = Send(msg: Msg) | Recv

  class Ring {
    const max: nat
    const size: nat
    const buf: array<bv8>
    var used: nat
    var readPtr: nat
    var writePtr: nat
    // The messages sent and not yet received.
    ghost var unread: seq<Msg>

    // The byte offset of slot ptr & (max - 1).
    function Offset(ptr: nat): nat
      requires max >= 1
    {
      And(ptr, max - 1) * size
    }

    // The j-th unread message lies in the slot j behind the read index.
    ghost predicate Holds(j: nat)
      requires max >= 1 && j < |unread|
      reads this, buf
    {
      var o := (readPtr + j) % max * size;
      o + size <= buf.Length && buf[o..o + size] == unread[j]
    }

    ghost predicate Valid()
      reads this, buf
    {
      && PowerOfTwo(max) && max < U32 && buf.Length == max * size
      && readPtr < U32 && writePtr < U32 && writePtr == (readPtr + used) % U32
      && used == |unread| <= max
      && forall j {:trigger Holds(j)} | 0 <= j < used :: Holds(j)
    }

    // nd_queue_init on a depth it accepts
    constructor (max: nat, size: nat)
      requires PowerOfTwo(max) && max < U32
      ensures Valid() && unread == [] && this.max == max && this.size == size && fresh(buf)
    {
      this.max, this.size := max, size;
      buf := new bv8[max * size];
      used, readPtr, writePtr, unread := 0, 0, 0, [];
    }

    // The fill level is what the two wrapping indices say.
    lemma LevelIs()
      requires Valid()
      ensures (writePtr - readPtr) % U32 == used
    {
      if readPtr + used >= U32 { assert writePtr == readPtr + used - U32; }
    }

    // The slot of the next message is the one behind all unread messages.
    lemma WriteSlot()
      requires Valid()
      ensures Offset(writePtr) == (readPtr + used) % max * size && Offset(writePtr) + size <= buf.Length
      ensures And(writePtr, max - 1) == (readPtr + used) % max
    {
      MaskIsRemainder(writePtr, max);
      WrapKeepsSlot(readPtr + used, max);
      SlotInside((readPtr + used) % max, max, size);
    }

    // nd_memcpy into a slot
    method PutSlot(o: nat, msg: Msg)
      requires o + size <= buf.Length && |msg| == size
      modifies buf
      ensures buf[o..o + size] == msg && forall i | 0 <= i < buf.Length && !(o <= i < o + size) :: buf[i] == old(buf[i])
    {
      for k := 0 to size
        invariant forall i | 0 <= i < k :: buf[o + i] == msg[i]
        invariant forall i | 0 <= i < buf.Length && !(o <= i < o + k) :: buf[i] == old(buf[i])
      {
        buf[o + k] := msg[k];
      }
    }

    // A write into the next slot leaves the unread messages alone.
    twostate lemma SlotsKept(j: nat)
      requires old(Valid()) && old(used) < max && j < old(used) && buf.Length == max * size
      requires forall i | 0 <= i < buf.Length && !(old(Offset(writePtr)) <= i < old(Offset(writePtr)) + size) :: buf[i] == old(buf[i])
      ensures var o := (old(readPtr) + j) % max * size; o + size <= buf.Length && buf[o..o + size] == old(unread)[j]
    {
      var s, t := (old(readPtr) + j) % max, (old(readPtr) + old(used)) % max;
      assert old(Holds(j));
      assert old(Offset(writePtr)) == t * size by { SlotIs(); }
      SlotsDiffer(old(readPtr) + j, old(readPtr) + old(used), max);
      SlotsApart(s, t, size);
    }

    twostate lemma SlotIs()
      requires old(Valid())
      ensures old(Offset(writePtr)) == (old(readPtr) + old(used)) % max * size
    {
      MaskIsRemainder(old(writePtr), max);
      WrapKeepsSlot(old(readPtr) + old(used), max);
    }

    // The storing part of nd_queue_send; false when the queue is full.
    method TrySend(msg: Msg) returns (ok: bool)
      requires Valid() && |msg| == size
      modifies this, buf
      ensures Valid() && ok == (|old(unread)| < max)
      ensures unread == if ok then old(unread) + [msg] else old(unread)
    {
      if used == max {
        return false;
      }
      WriteSlot();
      PutSlot(Offset(writePtr), msg);
      writePtr := (writePtr + 1) % U32;
      used := used + 1;
      unread := unread + [msg];
      Appended(msg);
      ok := true;
    }

    // The next slot filled and the write index one further: one more unread message at the end.
    twostate lemma Appended(msg: Msg)
      requires old(Valid()) && old(used) < max && |msg| == size && used == old(used) + 1 && unread == old(unread) + [msg]
      requires readPtr == old(readPtr) && writePtr == (old(writePtr) + 1) % U32 && old(Offset(writePtr)) + size <= buf.Length
      requires buf[old(Offset(writePtr))..old(Offset(writePtr)) + size] == msg
      requires forall i | 0 <= i < buf.Length && !(old(Offset(writePtr)) <= i < old(Offset(writePtr)) + size) :: buf[i] == old(buf[i])
      ensures Valid()
    {
      Advance(readPtr, old(used));
      forall j | 0 <= j < used ensures Holds(j) {
        var o := (readPtr + j) % max * size;
        if j < old(used) {
          SlotsKept(j);
          assert unread[j] == old(unread)[j];
        } else {
          SlotIs();
          assert o == old(Offset(writePtr)) && unread[j] == msg;
        }
      }
    }

    // The head of the unread messages lies in the read index's slot.
    lemma ReadSlot()
      requires Valid() && used > 0
      ensures Offset(readPtr) == readPtr % max * size && Offset(readPtr) + size <= buf.Length
      ensures buf[Offset(readPtr)..Offset(readPtr) + size] == unread[0]
    {
      MaskIsRemainder(readPtr, max);
      assert Holds(0);
    }

    // With the read index one further, every unread message is one nearer.
    twostate lemma Shifted()
      requires old(Valid()) && old(used) > 0 && used == old(used) - 1 && unread == old(unread)[1..]
      requires readPtr == (old(readPtr) + 1) % U32 && writePtr == old(writePtr) && buf[..] == old(buf[..])
      ensures Valid()
    {
      hide PowerOfTwo;
      forall j | 0 <= j < used ensures Holds(j) {
        assert old(Holds(j + 1));
        SameSlot(old(readPtr) + 1, j, max);
      }
    }

    // Taking the message out, as in nd_queue_recv; empty when there is none.
    method TryRecv() returns (ok: bool, msg: Msg)
      requires Valid()
      modifies this
      ensures Valid() && ok == (old(unread) != [])
      ensures if ok then old(unread) == [msg] + unread else unread == old(unread)
    {
      msg := [];
      if used == 0 {
        return false, msg;
      }
      ReadSlot();
      var o := Offset(readPtr);
      msg := buf[o..o + size];
      readPtr := (readPtr + 1) % U32;
      used := used - 1;
      unread := unread[1..];
      ok := true;
      Shifted();
    }

    // Any number of sends and receives: what comes out is what went in, in order, across every wrap of the indices.
    method Run(ops: seq<Op>) returns (sent: seq<Msg>, got: seq<Msg>)
      requires Valid() && forall op | op in ops :: op.Send? ==> |op.msg| == size
      modifies this, buf
      ensures Valid() && old(unread) + sent == got + unread
    {
      sent, got := [], [];
      for i := 0 to |ops|
        invariant Valid() && old(unread) + sent == got + unread
      {
        assert ops[i] in ops;
        match ops[i]
        case Send(msg) =>
          var ok := TrySend(msg);
          if ok {
            assert old(unread) + (sent + [msg]) == (old(unread) + sent) + [msg];
            sent := sent + [msg];
          }
        case Recv =>
          var ok, msg := TryRecv();
          if ok {
            assert (got + [msg]) + unread == got + ([msg] + unread);
            got := got + [msg];
          }
      }
    }
  }

  // The slot j behind a wrapped index.
  lemma SameSlot(x: nat, j: nat, m: nat)
    requires PowerOfTwo(m) && m <= U32
    ensures (x % U32 + j) % m == (x + j) % m
  {
    WidthIsPower();
    PowersDivide(m, U32);
    Parts(x, U32);
    AddMultiples(x % U32 + j, x / U32, U32, m);
  }

  lemma AddMultiples(y: nat, q: nat, w: nat, m: nat)
    requires m > 0 && w % m == 0
    ensures (q * w + y) % m == y % m
  {
    var k, a, r := w / m, y / m, y % m;
    assert w == k * m by { Parts(w, m); }
    assert y == a * m + r by { Parts(y, m); }
    assert q * w == q * (k * m);
    Regroup(q, k, m, a, r);
    RemainderIs(q * w + y, m, q * k + a, r);
  }

  lemma Advance(r: nat, u: nat)
    requires r < U32
    ensures ((r + u) % U32 + 1) % U32 == (r + (u + 1)) % U32
  {
  }
}
