module MemHeap {
  type Addr = nat

  const U32: nat := 0x1_0000_0000

  // Arithmetic on nd_uint32_t wraps around.
  function Wrap32(x: int): (r: nat)
    ensures r < U32 && (0 <= x < U32 ==> r == x)
  {
    x % U32
  }

  lemma WrapAdd(x: int, y: int)
    ensures Wrap32(Wrap32(x) + y) == Wrap32(x + y)
  {
    assert x == (x / U32) * U32 + x % U32;
    WrapMultiple(x % U32 + y, x / U32);
  }

  lemma {:induction false} WrapMultiple(x: int, k: int)
    ensures Wrap32(x + k * U32) == Wrap32(x)
    decreases if k < 0 then -k else k
  {
    if k > 0 {
      WrapMultiple(x, k - 1);
      assert (x + k * U32) == (x + (k - 1) * U32) + U32;
    } else if k < 0 {
      WrapMultiple(x, k + 1);
      assert (x + k * U32) == (x + (k + 1) * U32) - U32;
    }
  }

  lemma SameRemainder(x: int, d: int)
    ensures (x + d) % U32 == x % U32 <==> d % U32 == 0
  {
    if d % U32 == 0 {
      WrapMultiple(x, d / U32);
    } else if (x + d) % U32 == x % U32 {
      var q := (x + d) / U32 - x / U32;
      assert d == q * U32;
      WrapMultiple(0, q);
    }
  }

  // ----- Bit 0 of the next word is the used tag

  function Tag(used: bool): (t: nat) { if used then 1 else 0 }

  function Masked(w: nat): (a: nat)
    ensures a % 2 == 0 && a <= w <= a + 1
  {
    w - w % 2
  }

  function TagOf(w: nat): bool { w % 2 == 1 }

  function WithTag(a: nat, used: bool): (w: nat)
    ensures a % 2 == 0 ==> Masked(w) == a && TagOf(w) == used && w == a + Tag(used)
    ensures a % 2 == 1 ==> w == a
  {
    if used then a - a % 2 + 1 else a
  }

  // ----- Sequence edits

  ghost function Ins<T>(s: seq<T>, i: nat, x: T): (r: seq<T>)
    requires i <= |s|
    ensures |r| == |s| + 1 && r[i] == x
    ensures forall j {:trigger r[j]} | 0 <= j < i :: r[j] == s[j]
    ensures forall j {:trigger r[j]} | i < j < |r| :: r[j] == s[j - 1]
  {
    s[..i] + [x] + s[i..]
  }

  ghost function Del<T>(s: seq<T>, i: nat): (r: seq<T>)
    requires i < |s|
    ensures |r| == |s| - 1
    ensures forall j {:trigger r[j]} | 0 <= j < i :: r[j] == s[j]
    ensures forall j {:trigger r[j]} | i <= j < |r| :: r[j] == s[j + 1]
  {
    s[..i] + s[i + 1..]
  }

  // ----- The physical list

  ghost predicate Hop(all: seq<Addr>, used: seq<bool>, next: map<Addr, nat>, prev: map<Addr, Addr>, i: nat)
    requires |all| == |used| + 1 && i < |used|
  {
    && all[i] in next && next[all[i]] == all[i + 1] + Tag(used[i])
    && all[i + 1] in prev && prev[all[i + 1]] == all[i]
  }

  ghost predicate NoRepeats(all: seq<Addr>) {
    forall i, j | 0 <= i < j < |all| :: all[i] != all[j]
  }

  ghost predicate Evens(all: seq<Addr>) {
    forall i | 0 <= i < |all| :: all[i] % 2 == 0
  }

  // next and prev run through all, forwards and backwards, with used in the tag bits.
  ghost predicate Chained(all: seq<Addr>, used: seq<bool>, next: map<Addr, nat>, prev: map<Addr, Addr>) {
    && |all| == |used| + 1 && NoRepeats(all) && Evens(all)
    && forall i {:trigger Hop(all, used, next, prev, i)} | 0 <= i < |used| :: Hop(all, used, next, prev, i)
  }

  lemma ChainInsert(all: seq<Addr>, used: seq<bool>, next: map<Addr, nat>, prev: map<Addr, Addr>, i: nat, a: Addr)
    requires Chained(all, used, next, prev) && i < |used| && a % 2 == 0 && a !in all
    ensures Chained(Ins(all, i + 1, a), Ins(used, i + 1, false),
                    next[a := all[i + 1]][all[i] := a + Tag(used[i])], prev[a := all[i]][all[i + 1] := a])
  {
    var all', used' := Ins(all, i + 1, a), Ins(used, i + 1, false);
    var next', prev' := next[a := all[i + 1]][all[i] := a + Tag(used[i])], prev[a := all[i]][all[i + 1] := a];
    forall j | 0 <= j < |used'| ensures Hop(all', used', next', prev', j) {
      assert j < |used| ==> Hop(all, used, next, prev, j);
      assert j > 0 ==> Hop(all, used, next, prev, j - 1);
    }
  }

  lemma ChainRemove(all: seq<Addr>, used: seq<bool>, next: map<Addr, nat>, prev: map<Addr, Addr>, i: nat)
    requires Chained(all, used, next, prev) && 0 < i < |used|
    ensures Chained(Del(all, i), Del(used, i),
                    next[all[i - 1] := all[i + 1] + Tag(used[i - 1])], prev[all[i + 1] := all[i - 1]])
  {
    var all', used' := Del(all, i), Del(used, i);
    var next', prev' := next[all[i - 1] := all[i + 1] + Tag(used[i - 1])], prev[all[i + 1] := all[i - 1]];
    forall j | 0 <= j < |used'| ensures Hop(all', used', next', prev', j) {
      assert Hop(all, used, next, prev, j);
      assert Hop(all, used, next, prev, j + 1);
    }
  }

  lemma ChainTag(all: seq<Addr>, used: seq<bool>, next: map<Addr, nat>, prev: map<Addr, Addr>, i: nat, b: bool)
    requires Chained(all, used, next, prev) && i < |used|
    ensures Chained(all, used[i := b], next[all[i] := all[i + 1] + Tag(b)], prev)
  {
    var used', next' := used[i := b], next[all[i] := all[i + 1] + Tag(b)];
    forall j | 0 <= j < |used'| ensures Hop(all, used', next', prev, j) {
      assert Hop(all, used, next, prev, j);
    }
  }

  // ----- The free list

  ghost predicate Step(ring: seq<Addr>, nf: map<Addr, Addr>, pf: map<Addr, Addr>, i: nat)
    requires i + 1 < |ring|
  {
    ring[i] in nf && nf[ring[i]] == ring[i + 1] && ring[i + 1] in pf && pf[ring[i + 1]] == ring[i]
  }

  // next_free and prev_free run from head through free and back to head.
  ghost predicate Ringed(head: Addr, free: seq<Addr>, nf: map<Addr, Addr>, pf: map<Addr, Addr>) {
    && NoRepeats(free) && head !in free
    && forall i {:trigger Step([head] + free + [head], nf, pf, i)} | 0 <= i <= |free| :: Step([head] + free + [head], nf, pf, i)
  }

  lemma RingInsert(head: Addr, free: seq<Addr>, nf: map<Addr, Addr>, pf: map<Addr, Addr>, a: Addr)
    requires Ringed(head, free, nf, pf) && a !in free && a != head
    ensures var ring := [head] + free + [head];
            Ringed(head, [a] + free, nf[a := ring[1]][head := a], pf[a := head][ring[1] := a])
  {
    var ring, ring' := [head] + free + [head], [head] + ([a] + free) + [head];
    var nf', pf' := nf[a := ring[1]][head := a], pf[a := head][ring[1] := a];
    forall i | 0 <= i <= |free| + 1 ensures Step(ring', nf', pf', i) {
      assert i > 0 ==> Step(ring, nf, pf, i - 1);
      assert i > 0 ==> ring'[i] == (if i == 1 then a else ring[i - 1]) && ring'[i + 1] == ring[i];
    }
  }

  lemma RingRemove(head: Addr, free: seq<Addr>, nf: map<Addr, Addr>, pf: map<Addr, Addr>, k: nat)
    requires Ringed(head, free, nf, pf) && k < |free|
    ensures var ring := [head] + free + [head];
            Ringed(head, Del(free, k), nf[ring[k] := ring[k + 2]], pf[ring[k + 2] := ring[k]])
  {
    var ring, ring' := [head] + free + [head], [head] + Del(free, k) + [head];
    var nf', pf' := nf[ring[k] := ring[k + 2]], pf[ring[k + 2] := ring[k]];
    forall i | 0 <= i < |free| ensures Step(ring', nf', pf', i) {
      assert Step(ring, nf, pf, i) && Step(ring, nf, pf, i + 1);
      assert ring'[i] == (if i <= k then ring[i] else ring[i + 1]) && ring'[i + 1] == if i < k then ring[i + 1] else ring[i + 2];
    }
  }

  lemma RingReplace(head: Addr, free: seq<Addr>, nf: map<Addr, Addr>, pf: map<Addr, Addr>, k: nat, a: Addr)
    requires Ringed(head, free, nf, pf) && k < |free| && a !in free && a != head
    ensures var ring := [head] + free + [head];
            Ringed(head, free[k := a], nf[a := ring[k + 2]][ring[k] := a], pf[a := ring[k]][ring[k + 2] := a])
  {
    var ring, ring' := [head] + free + [head], [head] + free[k := a] + [head];
    var nf', pf' := nf[a := ring[k + 2]][ring[k] := a], pf[a := ring[k]][ring[k + 2] := a];
    forall i | 0 <= i <= |free| ensures Step(ring', nf', pf', i) {
      assert Step(ring, nf, pf, i);
      assert ring'[i] == (if i == k + 1 then a else ring[i]) && ring'[i + 1] == if i == k then a else ring[i + 1];
    }
  }

  // ----- The heap as a whole

  // Where a heap lies: the header size, the pool from start up to limit, and the control block, whose first two fields
  // are the sentinel headers, the end sentinel right behind the start sentinel.
  datatype Geo = Geo(header: nat, start: Addr, limit: Addr, first: Addr) {
    function Last(): Addr { first + header }

    // What is behind the pool, seen from its last item: the distance to the end sentinel is taken modulo 2^32.
    function Slack(): int { Last() - limit + if limit <= first then 0 else U32 }

    // Pool and sentinels lie in a 32-bit address space, clear of each other, in either order.
    ghost predicate Sound() {
      && 2 <= header && header % 2 == 0 && start % 2 == 0 && first % 2 == 0
      && 0 < start && start + header <= limit <= U32 && first + 2 * header <= U32
      && (limit <= first || first + 2 * header <= start)
    }
  }

  // The start sentinel, the items in address order and the end of the pool; the tags; the free list.
  datatype Shape = Shape(all: seq<Addr>, used: seq<bool>, free: seq<Addr>)

  // Room for a header between items i and i + 1.
  ghost predicate Fits(g: Geo, all: seq<Addr>, i: nat)
    requires i + 1 < |all|
  {
    all[i] + g.header <= all[i + 1]
  }

  ghost predicate Spaced(g: Geo, all: seq<Addr>) {
    forall i {:trigger Fits(g, all, i)} | 1 <= i < |all| - 1 :: Fits(g, all, i)
  }

  // The items tile the pool from start to limit.
  ghost predicate Tiled(g: Geo, s: Shape) {
    && |s.all| == |s.used| + 1 && |s.used| >= 2
    && s.all[0] == g.first && s.all[1] == g.start && s.all[|s.used|] == g.limit && s.used[0]
    && Spaced(g, s.all) && EvenItems(s.all)
  }

  ghost predicate EvenItems(all: seq<Addr>) {
    forall i | 0 <= i < |all| - 1 :: all[i] % 2 == 0
  }

  // The headers as they are linked: the end sentinel in the place of the end of the pool.
  ghost function Chain(g: Geo, all: seq<Addr>): (c: seq<Addr>)
    requires |all| > 0
    ensures |c| == |all| && c[|all| - 1] == g.Last() && forall i {:trigger c[i]} | 0 <= i < |all| - 1 :: c[i] == all[i]
  {
    all[|all| - 1 := g.Last()]
  }

  // No two items, or an item and the start sentinel, at the same address.
  ghost predicate Distinct(all: seq<Addr>) {
    forall i, j | 0 <= i < j < |all| - 1 :: all[i] != all[j]
  }

  ghost predicate Listed(s: Shape, i: nat)
    requires |s.all| == |s.used| + 1 && i < |s.used|
  {
    s.used[i] || s.all[i] in s.free
  }

  // Item i is free and at address a.
  ghost predicate FreeItem(s: Shape, a: Addr, i: nat)
    requires |s.all| == |s.used| + 1
  {
    i < |s.used| && s.all[i] == a && !s.used[i]
  }

  ghost predicate Backed(s: Shape, k: nat)
    requires |s.all| == |s.used| + 1 && k < |s.free|
  {
    exists i :: FreeItem(s, s.free[k], i)
  }

  // The free list holds exactly the untagged items, once each.
  ghost predicate FreeListed(s: Shape) {
    && |s.all| == |s.used| + 1 && NoRepeats(s.free)
    && (forall i {:trigger Listed(s, i)} | 0 <= i < |s.used| :: Listed(s, i))
    && (forall k {:trigger Backed(s, k)} | 0 <= k < |s.free| :: Backed(s, k))
  }

  ghost predicate NotBothFree(s: Shape, i: nat)
    requires i + 1 < |s.used|
  {
    s.used[i] || s.used[i + 1]
  }

  ghost predicate Coalesced(s: Shape) {
    forall i {:trigger NotBothFree(s, i)} | 0 <= i < |s.used| - 1 :: NotBothFree(s, i)
  }

  // An address is on the free list exactly when the item there is free.
  lemma FreeIff(s: Shape, i: nat)
    requires FreeListed(s) && Distinct(s.all) && i < |s.used|
    ensures s.all[i] in s.free <==> !s.used[i]
  {
    assert Listed(s, i);
    if s.all[i] in s.free {
      var k :| 0 <= k < |s.free| && s.free[k] == s.all[i];
      assert Backed(s, k);
    }
  }

  ghost predicate WellFormed(g: Geo, s: Shape) {
    g.Sound() && Tiled(g, s) && FreeListed(s) && Coalesced(s)
  }

  // Besides, the last item of the pool is free: it is the one that seems larger than it is.
  ghost predicate WellShaped(g: Geo, s: Shape) {
    WellFormed(g, s) && !s.used[|s.used| - 1]
  }

  lemma {:induction false} Apart(g: Geo, s: Shape, i: nat, j: nat)
    requires Tiled(g, s) && 1 <= i < j < |s.all|
    ensures s.all[i] + g.header <= s.all[j]
    decreases j
  {
    assert Fits(g, s.all, j - 1);
    if i < j - 1 { Apart(g, s, i, j - 1); }
  }

  lemma InPool(g: Geo, s: Shape, i: nat)
    requires g.Sound() && Tiled(g, s) && 1 <= i < |s.all|
    ensures g.start <= s.all[i] <= g.limit
    ensures i < |s.used| ==> s.all[i] + g.header <= g.limit && s.all[i] != g.first && s.all[i] != g.Last()
  {
    if i > 1 { Apart(g, s, 1, i); }
    if i < |s.used| { Apart(g, s, i, |s.used|); }
  }

  lemma Separated(g: Geo, s: Shape)
    requires g.Sound() && Tiled(g, s)
    ensures Distinct(s.all) && NoRepeats(Chain(g, s.all)) && Evens(Chain(g, s.all))
  {
    var c := Chain(g, s.all);
    forall i, j | 0 <= i < j < |s.all| ensures c[i] != c[j] {
      if i > 0 { InPool(g, s, i); }
      if j < |s.used| { InPool(g, s, j); }
      if 0 < i && j < |s.used| { Apart(g, s, i, j); }
    }
    forall i, j | 0 <= i < j < |s.used| ensures s.all[i] != s.all[j] { assert c[i] != c[j]; }
  }

  // The data size of item i, by position.
  ghost function Gap(h: nat, all: seq<Addr>, i: nat): int
    requires i + 1 < |all|
  {
    all[i + 1] - all[i] - h
  }

  // The free data bytes.
  ghost function FreeSum(h: nat, all: seq<Addr>, used: seq<bool>): int
    requires |all| == |used| + 1
  {
    if used == [] then 0
    else (if used[0] then 0 else Gap(h, all, 0)) + FreeSum(h, all[1..], used[1..])
  }

  lemma {:induction false} FreeSumSplit(h: nat, all: seq<Addr>, used: seq<bool>, i: nat)
    requires |all| == |used| + 1 && i <= |used|
    ensures FreeSum(h, all, used) == FreeSum(h, all[..i + 1], used[..i]) + FreeSum(h, all[i..], used[i..])
  {
    if i > 0 {
      FreeSumSplit(h, all[1..], used[1..], i - 1);
      assert all[..i + 1][1..] == all[1..][..i] && used[..i][1..] == used[1..][..i - 1];
      assert all[1..][i - 1..] == all[i..] && used[1..][i - 1..] == used[i..];
    } else {
      assert all[0..] == all && used[0..] == used;
    }
  }

  lemma FreeSumTwo(h: nat, all: seq<Addr>, used: seq<bool>, i: nat)
    requires |all| == |used| + 1 && i + 1 < |used|
    ensures FreeSum(h, all[i..], used[i..]) ==
      (if used[i] then 0 else Gap(h, all, i)) + (if used[i + 1] then 0 else Gap(h, all, i + 1))
      + FreeSum(h, all[i + 2..], used[i + 2..])
  {
    assert all[i..][1..] == all[i + 1..] && used[i..][1..] == used[i + 1..];
    assert all[i + 1..][1..] == all[i + 2..] && used[i + 1..][1..] == used[i + 2..];
  }

  lemma FreeSumTag(h: nat, all: seq<Addr>, used: seq<bool>, i: nat, b: bool)
    requires |all| == |used| + 1 && i < |used|
    ensures FreeSum(h, all, used[i := b]) == FreeSum(h, all, used)
      + (if used[i] then 0 else -Gap(h, all, i)) + (if b then 0 else Gap(h, all, i))
  {
    FreeSumSplit(h, all, used, i);
    FreeSumSplit(h, all, used[i := b], i);
    assert used[i := b][..i] == used[..i] && used[i := b][i..][1..] == used[i..][1..];
  }

  // Taking item i of the list out merges its space into item i - 1.
  lemma FreeSumDel(h: nat, all: seq<Addr>, used: seq<bool>, i: nat)
    requires |all| == |used| + 1 && 0 < i < |used|
    ensures FreeSum(h, Del(all, i), Del(used, i)) == FreeSum(h, all, used)
      - (if used[i] then 0 else Gap(h, all, i)) + (if used[i - 1] then 0 else Gap(h, all, i) + h)
  {
    var all', used' := Del(all, i), Del(used, i);
    FreeSumSplit(h, all, used, i - 1);
    FreeSumSplit(h, all', used', i - 1);
    FreeSumTwo(h, all, used, i - 1);
    assert all'[..i] == all[..i] && used'[..i - 1] == used[..i - 1];
    assert all'[i - 1..][1..] == all[i + 1..] && used'[i - 1..][1..] == used[i + 1..];
  }

  lemma FreeSumIns(h: nat, all: seq<Addr>, used: seq<bool>, i: nat, a: Addr)
    requires |all| == |used| + 1 && i < |used|
    ensures FreeSum(h, Ins(all, i + 1, a), Ins(used, i + 1, false)) == FreeSum(h, all, used)
      + all[i + 1] - a - h + (if used[i] then 0 else a as int - all[i + 1])
  {
    var all', used' := Ins(all, i + 1, a), Ins(used, i + 1, false);
    FreeSumSplit(h, all, used, i);
    FreeSumSplit(h, all', used', i);
    FreeSumTwo(h, all', used', i);
    assert all'[..i + 1] == all[..i + 1] && used'[..i] == used[..i];
    assert all'[i + 2..] == all[i..][1..] && used'[i + 2..] == used[i..][1..];
  }

  // A free item taken whole.
  lemma TakeWhole(g: Geo, s: Shape, i: nat, k: nat)
    requires WellShaped(g, s) && i + 1 < |s.used| && !s.used[i] && k < |s.free| && s.free[k] == s.all[i]
    ensures WellShaped(g, Shape(s.all, s.used[i := true], Del(s.free, k)))
  {
    Separated(g, s);
    var t := Shape(s.all, s.used[i := true], Del(s.free, k));
    forall j | 0 <= j < |t.used| ensures Listed(t, j) {
      if !t.used[j] {
        assert Listed(s, j);
        var m :| 0 <= m < |s.free| && s.free[m] == s.all[j];
        assert t.free[if m < k then m else m - 1] == s.all[j];
      }
    }
    forall m | 0 <= m < |t.free| ensures Backed(t, m) {
      var m' := if m < k then m else m + 1;
      assert Backed(s, m');
      var j: nat :| FreeItem(s, s.free[m'], j);
      assert FreeItem(t, t.free[m], j);
    }
    forall j | 0 <= j < |t.used| - 1 ensures NotBothFree(t, j) {
      assert NotBothFree(s, j);
    }
  }

  // The front of a free item taken and the rest left free.
  lemma TakeFront(g: Geo, s: Shape, i: nat, k: nat, a: Addr)
    requires WellShaped(g, s) && i < |s.used| && !s.used[i] && k < |s.free| && s.free[k] == s.all[i]
    requires a % 2 == 0 && s.all[i] + g.header <= a && a + g.header <= s.all[i + 1]
    ensures WellShaped(g, Shape(Ins(s.all, i + 1, a), Ins(s.used, i + 1, false)[i := true], s.free[k := a]))
  {
    Separated(g, s);
    var t := Shape(Ins(s.all, i + 1, a), Ins(s.used, i + 1, false)[i := true], s.free[k := a]);
    InsSpaced(g, s, i, a);
    Between(g, s, i, a);
    FreeNotAt(s, a);
    forall j | 0 <= j < |t.used| ensures Listed(t, j) {
      if !t.used[j] && j != i + 1 {
        var j' := if j <= i then j else j - 1;
        assert Listed(s, j');
        var m :| 0 <= m < |s.free| && s.free[m] == s.all[j'];
        assert t.free[m] == t.all[j];
      } else if j == i + 1 {
        assert t.free[k] == t.all[j];
      }
    }
    forall m | 0 <= m < |t.free| ensures Backed(t, m) {
      if m == k {
        assert FreeItem(t, t.free[m], i + 1);
      } else {
        assert Backed(s, m);
        var j: nat :| FreeItem(s, s.free[m], j);
        assert FreeItem(t, t.free[m], if j < i then j else j + 1);
      }
    }
    forall j | 0 <= j < |t.used| - 1 ensures NotBothFree(t, j) {
      if j < i { assert NotBothFree(s, j); }
      if j > i { assert NotBothFree(s, j - 1); }
    }
  }

  lemma FreeNotAt(s: Shape, a: Addr)
    requires FreeListed(s) && a !in s.all
    ensures a !in s.free
  {
    forall k | 0 <= k < |s.free| ensures s.free[k] != a {
      assert Backed(s, k);
    }
  }

  lemma InsSpaced(g: Geo, s: Shape, i: nat, a: Addr)
    requires g.Sound() && Tiled(g, s) && 1 <= i < |s.used| && a % 2 == 0
    requires s.all[i] + g.header <= a && a + g.header <= s.all[i + 1]
    ensures Tiled(g, Shape(Ins(s.all, i + 1, a), Ins(s.used, i + 1, false)[i := true], []))
  {
    var all := Ins(s.all, i + 1, a);
    forall m | 1 <= m < |all| - 1 ensures Fits(g, all, m) {
      if m < i { assert Fits(g, s.all, m); }
      if m > i + 1 { assert Fits(g, s.all, m - 1); }
    }
  }

  // No item starts inside the data of item i.
  lemma Between(g: Geo, s: Shape, i: nat, a: Addr)
    requires g.Sound() && Tiled(g, s) && 1 <= i < |s.used| && s.all[i] < a < s.all[i + 1]
    ensures a !in s.all && a !in Chain(g, s.all)
  {
    InPool(g, s, i);
    InPool(g, s, i + 1);
    if a in s.all {
      var j :| 0 <= j < |s.all| && s.all[j] == a;
      if 0 < j < i { Apart(g, s, j, i); }
      if j > i + 1 { Apart(g, s, i + 1, j); }
    }
  }

  // Well shaped but for item i, which is on neither side: not on the free list, whatever its tag.
  ghost predicate Limbo(g: Geo, s: Shape, i: nat) {
    && 1 <= i < |s.used| && |s.all| == |s.used| + 1
    && WellFormed(g, s.(used := s.used[i := true])) && (i + 1 == |s.used| || !s.used[|s.used| - 1])
  }

  // Item i swallows the free item after it.
  lemma AbsorbNext(g: Geo, s: Shape, i: nat, k: nat)
    requires Limbo(g, s, i) && i + 1 < |s.used| && !s.used[i + 1] && k < |s.free| && s.free[k] == s.all[i + 1]
    ensures Limbo(g, Shape(Del(s.all, i + 1), Del(s.used, i + 1), Del(s.free, k)), i)
    ensures i + 2 < |s.used| ==> s.used[i + 2]
  {
    hide FreeListed, Coalesced;
    var s0, t := s.(used := s.used[i := true]), Shape(Del(s.all, i + 1), Del(s.used, i + 1)[i := true], Del(s.free, k));
    assert t.used == Del(s.used, i + 1)[i := true] == Del(s0.used, i + 1);
    DropTiled(g, s0, i);
    assert Tiled(g, t);
    DropListed(g, s0, i, k);
    DropCoalesced(s0, i, t.free);
  }

  // The same, piece by piece, for the item behind i taken out.
  lemma DropTiled(g: Geo, s: Shape, i: nat)
    requires Tiled(g, s) && 1 <= i && i + 1 < |s.used|
    ensures Tiled(g, Shape(Del(s.all, i + 1), Del(s.used, i + 1), s.free))
  {
    var all := Del(s.all, i + 1);
    forall j | 1 <= j < |all| - 1 ensures Fits(g, all, j) {
      if j <= i { assert Fits(g, s.all, j); }
      if j >= i { assert Fits(g, s.all, j + 1); }
    }
  }

  lemma DropListed(g: Geo, s: Shape, i: nat, k: nat)
    requires g.Sound() && Tiled(g, s) && FreeListed(s) && i + 1 < |s.used| && k < |s.free| && s.free[k] == s.all[i + 1]
    ensures FreeListed(Shape(Del(s.all, i + 1), Del(s.used, i + 1), Del(s.free, k)))
  {
    var t := Shape(Del(s.all, i + 1), Del(s.used, i + 1), Del(s.free, k));
    Separated(g, s);
    forall j | 0 <= j < |t.used| ensures Listed(t, j) {
      if !t.used[j] {
        var j' := if j <= i then j else j + 1;
        assert Listed(s, j');
        var m :| 0 <= m < |s.free| && s.free[m] == s.all[j'];
        assert t.free[if m < k then m else m - 1] == t.all[j];
      }
    }
    forall m | 0 <= m < |t.free| ensures Backed(t, m) {
      var m' := if m < k then m else m + 1;
      assert Backed(s, m');
      var j: nat :| FreeItem(s, s.free[m'], j);
      assert FreeItem(t, t.free[m], if j <= i then j else j - 1);
    }
  }

  lemma DropCoalesced(s: Shape, i: nat, free: seq<Addr>)
    requires Coalesced(s) && |s.all| == |s.used| + 1 && i + 1 < |s.used| && s.used[i] && !s.used[i + 1]
    ensures Coalesced(Shape(Del(s.all, i + 1), Del(s.used, i + 1), free)) && (i + 2 < |s.used| ==> s.used[i + 2])
  {
    var t := Shape(Del(s.all, i + 1), Del(s.used, i + 1), free);
    if i + 2 < |s.used| { assert NotBothFree(s, i + 1); }
    forall j | 0 <= j < |t.used| - 1 ensures NotBothFree(t, j) {
      if j < i { assert NotBothFree(s, j); }
      if j > i { assert NotBothFree(s, j + 1); }
    }
  }

  // Item i goes into the free item before it.
  lemma MergePrev(g: Geo, s: Shape, i: nat)
    requires Limbo(g, s, i) && !s.used[i - 1] && (i + 1 < |s.used| ==> s.used[i + 1])
    ensures WellShaped(g, Shape(Del(s.all, i), Del(s.used, i), s.free)) && i > 1
  {
    var s0, t := s.(used := s.used[i := true]), Shape(Del(s.all, i), Del(s.used, i), s.free);
    Separated(g, s0);
    forall j | 1 <= j < |t.all| - 1 ensures Fits(g, t.all, j) {
      if j < i { assert Fits(g, s0.all, j); }
      if j >= i - 1 { assert Fits(g, s0.all, j + 1); }
    }
    forall j | 0 <= j < |t.used| ensures Listed(t, j) {
      assert Listed(s0, if j < i then j else j + 1);
    }
    forall m | 0 <= m < |t.free| ensures Backed(t, m) {
      assert Backed(s0, m);
      var j: nat :| FreeItem(s0, s.free[m], j);
      assert FreeItem(t, t.free[m], if j < i then j else j - 1);
    }
    forall j | 0 <= j < |t.used| - 1 ensures NotBothFree(t, j) {
      if j < i - 1 { assert NotBothFree(s0, j); }
      if j >= i { assert NotBothFree(s0, j + 1); }
    }
  }

  // Item i joins the free list by itself.
  lemma ReleaseAlone(g: Geo, s: Shape, i: nat)
    requires Limbo(g, s, i) && s.used[i - 1] && (i + 1 < |s.used| ==> s.used[i + 1])
    ensures WellShaped(g, Shape(s.all, s.used[i := false], [s.all[i]] + s.free))
  {
    var s0, t := s.(used := s.used[i := true]), Shape(s.all, s.used[i := false], [s.all[i]] + s.free);
    Separated(g, s0);
    FreeIff(s0, i);
    forall j | 0 <= j < |t.used| ensures Listed(t, j) {
      assert Listed(s0, j);
    }
    forall m | 0 <= m < |t.free| ensures Backed(t, m) {
      if m == 0 {
        assert FreeItem(t, t.free[m], i);
      } else {
        assert Backed(s0, m - 1);
        var j: nat :| FreeItem(s0, s.free[m - 1], j);
        assert FreeItem(t, t.free[m], j);
      }
    }
    forall j | 0 <= j < |t.used| - 1 ensures NotBothFree(t, j) {
      assert NotBothFree(s0, j);
    }
  }

  // When everything is free there is one item.
  lemma OneItem(g: Geo, s: Shape)
    requires WellShaped(g, s) && forall i | 1 <= i < |s.used| :: !s.used[i]
    ensures s.all == [g.first, g.start, g.limit]
  {
    if |s.used| > 2 { OneOfTwo(s); }
  }

  lemma OneOfTwo(s: Shape)
    requires Coalesced(s) && |s.used| > 2
    ensures s.used[1] || s.used[2]
  {
    assert NotBothFree(s, 1);
  }

  // ----- The live blocks: item address to data size

  ghost function Blocks(h: nat, all: seq<Addr>, used: seq<bool>): (b: map<Addr, int>)
    requires |all| == |used| + 1
  {
    if |used| <= 1 then map[]
    else
      var n, b := |used| - 1, Blocks(h, all[..|used|], used[..|used| - 1]);
      if used[n] then b[all[n] := Gap(h, all, n)] else b
  }

  ghost predicate BlockAt(h: nat, all: seq<Addr>, used: seq<bool>, i: nat, x: Addr, n: int)
    requires |all| == |used| + 1
  {
    1 <= i < |used| && used[i] && all[i] == x && Gap(h, all, i) == n
  }

  lemma {:induction false} BlockThere(h: nat, all: seq<Addr>, used: seq<bool>, i: nat)
    requires |all| == |used| + 1 && Distinct(all) && 1 <= i < |used| && used[i]
    ensures all[i] in Blocks(h, all, used) && Blocks(h, all, used)[all[i]] == Gap(h, all, i)
  {
    if i < |used| - 1 { BlockThere(h, all[..|used|], used[..|used| - 1], i); }
  }

  lemma {:induction false} BlockFrom(h: nat, all: seq<Addr>, used: seq<bool>, x: Addr) returns (i: nat)
    requires |all| == |used| + 1 && x in Blocks(h, all, used)
    ensures BlockAt(h, all, used, i, x, Blocks(h, all, used)[x])
  {
    if used[|used| - 1] && x == all[|used| - 1] {
      i := |used| - 1;
    } else {
      i := BlockFrom(h, all[..|used|], used[..|used| - 1], x);
    }
  }

  // The blocks are what b says.
  ghost predicate BlocksMatch(h: nat, all: seq<Addr>, used: seq<bool>, b: map<Addr, int>)
    requires |all| == |used| + 1
  {
    && (forall x | x in b :: exists i :: BlockAt(h, all, used, i, x, b[x]))
    && (forall i {:trigger used[i]} | 1 <= i < |used| :: used[i] ==> all[i] in b)
  }

  lemma BlocksUnique(h: nat, all: seq<Addr>, used: seq<bool>, b: map<Addr, int>)
    requires |all| == |used| + 1 && Distinct(all) && BlocksMatch(h, all, used, b)
    ensures Blocks(h, all, used) == b
  {
    var c := Blocks(h, all, used);
    forall x | x in b ensures x in c && c[x] == b[x] {
      var i: nat :| BlockAt(h, all, used, i, x, b[x]);
      BlockThere(h, all, used, i);
    }
    forall x | x in c ensures x in b {
      var i := BlockFrom(h, all, used, x);
    }
  }

  lemma BlocksInsert(h: nat, all: seq<Addr>, used: seq<bool>, i: nat, a: Addr)
    requires |all| == |used| + 1 && Distinct(all) && 1 <= i < |used| && a !in all && used[i]
    ensures Blocks(h, Ins(all, i + 1, a), Ins(used, i + 1, false)) == Blocks(h, all, used)[all[i] := a - all[i] - h]
  {
    var all', used' := Ins(all, i + 1, a), Ins(used, i + 1, false);
    var b := Blocks(h, all, used)[all[i] := a - all[i] - h];
    forall x | x in b ensures exists j :: BlockAt(h, all', used', j, x, b[x]) {
      if x == all[i] {
        assert BlockAt(h, all', used', i, x, b[x]);
      } else {
        var j := BlockFrom(h, all, used, x);
        assert BlockAt(h, all', used', if j < i then j else j + 1, x, b[x]);
      }
    }
    forall j {:trigger used'[j]} | 1 <= j < |used'| && used'[j] ensures all'[j] in b {
      BlockThere(h, all, used, if j <= i then j else j - 1);
    }
    BlocksUnique(h, all', used', b);
  }

  lemma BlocksTake(h: nat, all: seq<Addr>, used: seq<bool>, i: nat)
    requires |all| == |used| + 1 && Distinct(all) && 1 <= i < |used|
    ensures Blocks(h, all, used[i := true]) == Blocks(h, all, used)[all[i] := Gap(h, all, i)]
  {
    var used', b := used[i := true], Blocks(h, all, used)[all[i] := Gap(h, all, i)];
    forall x | x in b ensures exists j :: BlockAt(h, all, used', j, x, b[x]) {
      if x == all[i] {
        assert BlockAt(h, all, used', i, x, b[x]);
      } else {
        var j := BlockFrom(h, all, used, x);
        assert BlockAt(h, all, used', j, x, b[x]);
      }
    }
    forall j {:trigger used'[j]} | 1 <= j < |used'| && used'[j] ensures all[j] in b {
      if j != i { BlockThere(h, all, used, j); }
    }
    BlocksUnique(h, all, used', b);
  }

  lemma BlocksRelease(h: nat, all: seq<Addr>, used: seq<bool>, i: nat)
    requires |all| == |used| + 1 && Distinct(all) && 1 <= i < |used|
    ensures Blocks(h, all, used[i := false]) == Blocks(h, all, used) - {all[i]}
  {
    var used', b := used[i := false], Blocks(h, all, used) - {all[i]};
    forall x | x in b ensures exists j :: BlockAt(h, all, used', j, x, b[x]) {
      var j := BlockFrom(h, all, used, x);
      assert BlockAt(h, all, used', j, x, b[x]);
    }
    forall j {:trigger used'[j]} | 1 <= j < |used'| && used'[j] ensures all[j] in b {
      BlockThere(h, all, used, j);
    }
    BlocksUnique(h, all, used', b);
  }

  // Taking a free item out of the list gives its space to the item before it.
  lemma BlocksDelete(h: nat, all: seq<Addr>, used: seq<bool>, i: nat)
    requires |all| == |used| + 1 && Distinct(all) && 1 < i < |used| && !used[i]
    ensures Blocks(h, Del(all, i), Del(used, i)) ==
      if used[i - 1] then Blocks(h, all, used)[all[i - 1] := all[i + 1] - all[i - 1] - h] else Blocks(h, all, used)
  {
    var all', used' := Del(all, i), Del(used, i);
    var b := if used[i - 1] then Blocks(h, all, used)[all[i - 1] := all[i + 1] - all[i - 1] - h] else Blocks(h, all, used);
    forall x | x in b ensures exists j :: BlockAt(h, all', used', j, x, b[x]) {
      if x == all[i - 1] && used[i - 1] {
        assert BlockAt(h, all', used', i - 1, x, b[x]);
      } else {
        var j := BlockFrom(h, all, used, x);
        assert BlockAt(h, all', used', if j < i then j else j - 1, x, b[x]);
      }
    }
    forall j {:trigger used'[j]} | 1 <= j < |used'| && used'[j] ensures all'[j] in b {
      BlockThere(h, all, used, if j < i then j else j + 1);
    }
    BlocksUnique(h, all', used', b);
  }

  // The space counter shows the free bytes, off by drift, modulo its width.
  ghost predicate Balanced(h: nat, available: nat, all: seq<Addr>, used: seq<bool>, drift: int)
    requires |all| == |used| + 1
  {
    available == Wrap32(FreeSum(h, all, used) + drift)
  }

  // Moving the free bytes and the counter by the same amount keeps them balanced.
  lemma BalanceMoves(h: nat, available: nat, all: seq<Addr>, used: seq<bool>, all': seq<Addr>, used': seq<bool>, drift: int, n: int)
    requires |all| == |used| + 1 && |all'| == |used'| + 1 && Balanced(h, available, all, used, drift)
    requires FreeSum(h, all', used') == FreeSum(h, all, used) + n
    ensures Balanced(h, Wrap32(available + n), all', used', drift)
  {
    var x := FreeSum(h, all, used) + drift;
    WrapAdd(x, n);
    assert FreeSum(h, all', used') + drift == x + n;
  }

  // b1 agrees with b0 on the data of the blocks.
  ghost predicate SameData(h: nat, blocks: map<Addr, int>, b0: map<Addr, bv8>, b1: map<Addr, bv8>) {
    forall a | a in blocks :: SameBytes(a + h, blocks[a], b0, b1)
  }

  ghost predicate SameBytes(from: Addr, n: int, b0: map<Addr, bv8>, b1: map<Addr, bv8>) {
    forall x {:trigger SameByte(b0, x, b1, x)} | from <= x < from + n :: SameByte(b0, x, b1, x)
  }

  ghost predicate SameByte(b0: map<Addr, bv8>, x: Addr, b1: map<Addr, bv8>, y: Addr) {
    (x in b0 <==> y in b1) && (x in b0 ==> b0[x] == b1[y])
  }

  // A header at a, inside item i, is clear of every other header.
  lemma HeaderClear(g: Geo, s: Shape, i: nat, a: Addr)
    requires g.Sound() && Tiled(g, s) && 1 <= i < |s.used| && s.all[i] + g.header <= a && a + g.header <= s.all[i + 1]
    ensures forall c | c in Chain(g, s.all) :: c + g.header <= a || a + g.header <= c
  {
    InPool(g, s, i);
    InPool(g, s, i + 1);
    forall j | 0 <= j < |s.used| ensures s.all[j] + g.header <= a || a + g.header <= s.all[j] {
      if 1 <= j < i { Apart(g, s, j, i); }
      if j > i + 1 { Apart(g, s, i + 1, j); }
    }
  }

  // Bytes inside item i are not data of another block.
  lemma OthersKept(g: Geo, s: Shape, i: nat, b0: map<Addr, bv8>, b1: map<Addr, bv8>)
    requires g.Sound() && Tiled(g, s) && 1 <= i < |s.used|
    requires forall x {:trigger SameByte(b0, x, b1, x)} | x < s.all[i] || s.all[i + 1] <= x :: SameByte(b0, x, b1, x)
    ensures SameData(g.header, Blocks(g.header, s.all, s.used) - {s.all[i]}, b0, b1)
  {
    var b := Blocks(g.header, s.all, s.used) - {s.all[i]};
    forall a | a in b ensures SameBytes(a + g.header, b[a], b0, b1) {
      var j := BlockFrom(g.header, s.all, s.used, a);
      if j < i - 1 { Apart(g, s, j + 1, i); }
      if j > i + 1 { Apart(g, s, i + 1, j); }
    }
  }

  lemma SplitBlocks(g: Geo, s: Shape, i: nat, a: Addr, n: nat)
    requires WellShaped(g, s) && 1 <= i < |s.used| && a !in s.all && a == s.all[i] + g.header + n
    ensures Blocks(g.header, Ins(s.all, i + 1, a), Ins(s.used, i + 1, false)[i := true])
         == Blocks(g.header, s.all, s.used)[s.all[i] := n]
  {
    var h, t := g.header, s.used[i := true];
    Separated(g, s);
    assert Ins(s.used, i + 1, false)[i := true] == Ins(t, i + 1, false);
    BlocksInsert(h, s.all, t, i, a);
    BlocksTake(h, s.all, s.used, i);
  }

  lemma Parity(x: nat, y: nat, z: nat)
    requires x % 2 == 0 && y % 2 == 0
    ensures (x + y + z) % 2 == z % 2
  {
  }

  lemma FreeNoBlock(g: Geo, s: Shape, i: nat)
    requires g.Sound() && Tiled(g, s) && 1 <= i < |s.used| && !s.used[i]
    ensures Blocks(g.header, s.all, s.used) - {s.all[i]} == Blocks(g.header, s.all, s.used)
  {
    if s.all[i] in Blocks(g.header, s.all, s.used) {
      var j := BlockFrom(g.header, s.all, s.used, s.all[i]);
      if j < i { Apart(g, s, j, i); }
      if j > i { Apart(g, s, i, j); }
    }
  }

  // Taking free item i out of the list, after a free item, frees its header too.
  lemma DropItem(h: nat, all: seq<Addr>, used: seq<bool>, i: nat, available: nat, drift: int)
    requires |all| == |used| + 1 && Distinct(all) && 1 < i < |used| && !used[i] && !used[i - 1]
    requires Balanced(h, available, all, used, drift)
    ensures Balanced(h, Wrap32(available + h), Del(all, i), Del(used, i), drift)
    ensures Blocks(h, Del(all, i), Del(used, i)) == Blocks(h, all, used)
  {
    FreeSumDel(h, all, used, i);
    BalanceMoves(h, available, all, used, Del(all, i), Del(used, i), drift, h);
    BlocksDelete(h, all, used, i);
  }

  lemma CountFree(h: nat, available: nat, all: seq<Addr>, used: seq<bool>, drift: int, i: nat)
    requires |all| == |used| + 1 && i < |used| && Balanced(h, available, all, used[i := true], drift)
    ensures Balanced(h, Wrap32(available + Gap(h, all, i)), all, used[i := false], drift)
  {
    FreeSumTag(h, all, used[i := true], i, false);
    assert used[i := true][i := false] == used[i := false];
    BalanceMoves(h, available, all, used[i := true], all, used[i := false], drift, Gap(h, all, i));
  }

  // Item i is being given back: counted as free, but not on the free list.
  ghost predicate Pending(g: Geo, s: Shape, i: nat, available: nat, drift: int) {
    Limbo(g, s, i) && Balanced(g.header, available, s.all, s.used[i := false], drift)
  }

  ghost predicate Accounted(g: Geo, s: Shape, available: nat, drift: int) {
    WellShaped(g, s) && Balanced(g.header, available, s.all, s.used, drift)
  }

  ghost function Without(s: Shape, i: nat, free: seq<Addr>): Shape
    requires i < |s.all| && i < |s.used|
  {
    Shape(Del(s.all, i), Del(s.used, i), free)
  }

  ghost function BlocksBut(h: nat, s: Shape, i: nat): map<Addr, int>
    requires |s.all| == |s.used| + 1 && i < |s.used|
  {
    Blocks(h, s.all, s.used[i := false])
  }

  lemma NextListed(g: Geo, s: Shape, i: nat) returns (k: nat)
    requires Limbo(g, s, i) && i + 1 < |s.used| && !s.used[i + 1]
    ensures k < |s.free| && s.free[k] == s.all[i + 1] && k == IndexOf(s.free, s.all[i + 1])
  {
    assert Listed(s.(used := s.used[i := true]), i + 1);
    k := IndexOf(s.free, s.all[i + 1]);
  }

  // Item i, counted as free, swallows the free item after it.
  lemma Swallowed(g: Geo, s: Shape, i: nat, k: nat, available: nat, drift: int)
    requires Pending(g, s, i, available, drift) && i + 1 < |s.used| && !s.used[i + 1] && k < |s.free| && s.free[k] == s.all[i + 1]
    ensures var t := Without(s, i + 1, Del(s.free, k));
      Pending(g, t, i, Wrap32(available + g.header), drift) && t.all[i] == s.all[i] && (i + 1 < |t.used| ==> t.used[i + 1])
      && BlocksBut(g.header, t, i) == BlocksBut(g.header, s, i)
  {
    hide FreeListed, Spaced, Evens, Coalesced, Blocks, FreeSum, Balanced;
    var t := Without(s, i + 1, Del(s.free, k));
    assert Limbo(g, t, i) && t.all[i] == s.all[i] && (i + 1 < |t.used| ==> t.used[i + 1]) by { AbsorbNext(g, s, i, k); }
    assert Distinct(s.all) by { Separated(g, s.(used := s.used[i := true])); }
    DropItem(g.header, s.all, s.used[i := false], i + 1, available, drift);
    assert Del(s.used, i + 1)[i := false] == Del(s.used[i := false], i + 1);
  }

  // Item i, counted as free, goes into the free item before it.
  lemma Merged(g: Geo, s: Shape, i: nat, available: nat, drift: int)
    requires Pending(g, s, i, available, drift) && !s.used[i - 1] && (i + 1 < |s.used| ==> s.used[i + 1])
    ensures var t := Without(s, i, s.free);
      i > 1 && t.(used := t.used[i - 1 := false]) == t && Accounted(g, t, Wrap32(available + g.header), drift)
      && Blocks(g.header, t.all, t.used) == BlocksBut(g.header, s, i)
  {
    MergePrev(g, s, i);
    assert Distinct(s.all) by { Separated(g, s.(used := s.used[i := true])); }
    DropItem(g.header, s.all, s.used[i := false], i, available, drift);
    assert Del(s.used[i := false], i) == Del(s.used, i);
    assert Del(s.used, i)[i - 1 := false] == Del(s.used, i);
  }

  lemma FreePlace(g: Geo, s: Shape, i: nat) returns (k: nat)
    requires WellShaped(g, s) && i < |s.used| && !s.used[i]
    ensures k < |s.free| && s.free[k] == s.all[i] && k == IndexOf(s.free, s.all[i])
  {
    assert Listed(s, i);
    k := IndexOf(s.free, s.all[i]);
  }

  // A used item cut off behind the used item i.
  lemma CutTail(g: Geo, s: Shape, i: nat, a: Addr)
    requires WellFormed(g, s) && 1 <= i < |s.used| && s.used[i] && a % 2 == 0
    requires s.all[i] + g.header <= a && a + g.header <= s.all[i + 1]
    ensures WellFormed(g, Shape(Ins(s.all, i + 1, a), Ins(s.used, i + 1, true), s.free))
  {
    var t := Shape(Ins(s.all, i + 1, a), Ins(s.used, i + 1, true), s.free);
    InsSpaced(g, s, i, a);
    forall j | 0 <= j < |t.used| ensures Listed(t, j) {
      if j != i + 1 {
        var j' := if j <= i then j else j - 1;
        assert Listed(s, j') && t.all[j] == s.all[j'];
      }
    }
    forall m | 0 <= m < |t.free| ensures Backed(t, m) {
      assert Backed(s, m);
      var j: nat :| FreeItem(s, s.free[m], j);
      assert FreeItem(t, t.free[m], if j < i then j else j + 1);
    }
    forall j | 0 <= j < |t.used| - 1 ensures NotBothFree(t, j) {
      if j < i { assert NotBothFree(s, j); }
      if j > i { assert NotBothFree(s, j - 1); }
    }
  }

  lemma ShrinkTail(g: Geo, s: Shape, i: nat, a: Addr, size: nat, available: nat, drift: int)
    requires Accounted(g, s, available, drift) && 1 <= i < |s.used| && s.used[i] && a == s.all[i] + g.header + size
    requires a % 2 == 0 && a + g.header <= s.all[i + 1]
    ensures var t := Shape(Ins(s.all, i + 1, a), Ins(s.used, i + 1, false), s.free);
      Limbo(g, t, i + 1) && i + 2 < |t.used| && Balanced(g.header, available, t.all, t.used[i + 1 := true], drift)
      && BlocksBut(g.header, t, i + 1) == Blocks(g.header, s.all, s.used)[s.all[i] := size]
  {
    hide FreeListed, Spaced, Evens, Coalesced, Blocks, FreeSum;
    var h, all, used := g.header, Ins(s.all, i + 1, a), Ins(s.used, i + 1, false);
    CutTail(g, s, i, a);
    assert used[i + 1 := true] == Ins(s.used, i + 1, true) && used[i + 1 := false] == used;
    FreeSumIns(h, s.all, s.used, i, a);
    FreeSumTag(h, all, used, i + 1, true);
    BalanceMoves(h, available, s.all, s.used, all, used[i + 1 := true], drift, 0);
    Separated(g, s);
    Between(g, s, i, a);
    BlocksInsert(h, s.all, s.used, i, a);
    assert a - s.all[i] - h == size;
  }

  // The used item i takes over the free item behind it.
  lemma SwallowedByUsed(g: Geo, s: Shape, i: nat, k: nat)
    requires WellShaped(g, s) && 1 <= i && i + 1 < |s.used| && s.used[i] && !s.used[i + 1]
    requires k < |s.free| && s.free[k] == s.all[i + 1]
    ensures var t := Without(s, i + 1, Del(s.free, k));
      && WellFormed(g, t) && (i + 2 < |s.used| ==> WellShaped(g, t)) && (i + 2 == |s.used| ==> i + 1 == |t.used|)
      && FreeSum(g.header, t.all, t.used) == FreeSum(g.header, s.all, s.used) - Gap(g.header, s.all, i + 1)
      && t.all[i] == s.all[i] && t.used[i] && (i + 1 < |t.used| ==> t.used[i + 1])
      && Gap(g.header, t.all, i) == Gap(g.header, s.all, i) + g.header + Gap(g.header, s.all, i + 1)
      && Blocks(g.header, t.all, t.used) == Blocks(g.header, s.all, s.used)[s.all[i] := Gap(g.header, t.all, i)]
  {
    hide FreeListed, Spaced, Evens, Coalesced, Blocks, FreeSum;
    var t := Without(s, i + 1, Del(s.free, k));
    assert Limbo(g, t, i) && WellFormed(g, t) && (i + 1 < |t.used| ==> t.used[i + 1]) by {
      assert s.used[i := true] == s.used;
      AbsorbNext(g, s, i, k);
      assert t.used[i := true] == t.used;
    }
    FreeSumDel(g.header, s.all, s.used, i + 1);
    Separated(g, s);
    BlocksDelete(g.header, s.all, s.used, i + 1);
  }

  // A free item at a behind item i.
  ghost function Rested(t: Shape, i: nat, a: Addr): Shape
    requires i < |t.all| && i < |t.used|
  {
    Shape(Ins(t.all, i + 1, a), Ins(t.used, i + 1, false), [a] + t.free)
  }

  lemma RestShape(g: Geo, t: Shape, i: nat, a: Addr)
    requires WellFormed(g, t) && 1 <= i < |t.used| && t.used[i] && (i + 1 < |t.used| ==> t.used[i + 1] && !t.used[|t.used| - 1]) && a % 2 == 0
    requires t.all[i] + g.header <= a && a + g.header <= t.all[i + 1]
    ensures WellShaped(g, Rested(t, i, a))
  {
    hide FreeListed, Spaced, EvenItems, Coalesced;
    CutTail(g, t, i, a);
    var c := Shape(Ins(t.all, i + 1, a), Ins(t.used, i + 1, true), t.free);
    assert c.used[i + 1 := true] == c.used && c.used[i + 1 := false] == Ins(t.used, i + 1, false);
    ReleaseAlone(g, c, i + 1);
  }

  // What is left behind the used item i, once it has size bytes, is a free item again.
  lemma RestFree(g: Geo, s: Shape, i: nat, k: nat, a: Addr, size: nat, available: nat, drift: int)
    requires Accounted(g, s, available, drift) && 1 <= i && i + 1 < |s.used| && s.used[i] && !s.used[i + 1]
    requires k < |s.free| && s.free[k] == s.all[i + 1] && a == s.all[i] + g.header + size && a % 2 == 0
    requires Gap(g.header, s.all, i) < size && a + g.header <= s.all[i + 2]
    ensures var u := Rested(Without(s, i + 1, Del(s.free, k)), i, a);
      && Accounted(g, u, Wrap32(available - (size - Gap(g.header, s.all, i))), drift)
      && Blocks(g.header, u.all, u.used) == Blocks(g.header, s.all, s.used)[s.all[i] := size]
  {
    hide FreeListed, Spaced, EvenItems, Coalesced, Blocks, FreeSum, Balanced, Limbo;
    var h, t := g.header, Without(s, i + 1, Del(s.free, k));
    SwallowedByUsed(g, s, i, k);
    var u := Rested(t, i, a);
    RestShape(g, t, i, a);
    FreeSumIns(h, t.all, t.used, i, a);
    BalanceMoves(h, available, s.all, s.used, u.all, u.used, drift, Gap(h, s.all, i) - size);
    Separated(g, t);
    Between(g, t, i, a);
    BlocksInsert(h, t.all, t.used, i, a);
  }

  // Absorbing the free item whole leaves the counter too high by what the free item is not charged for.
  lemma Absorbed(g: Geo, s: Shape, i: nat, k: nat, size: nat, available: nat, drift: int)
    requires Accounted(g, s, available, drift) && 1 <= i && i + 2 < |s.used| && s.used[i] && !s.used[i + 1]
    requires k < |s.free| && s.free[k] == s.all[i + 1]
    ensures var t := Without(s, i + 1, Del(s.free, k));
      var bs, nbs := Gap(g.header, s.all, i), Gap(g.header, s.all, i + 1);
      Accounted(g, t, Wrap32(Wrap32(available + g.header) - (size - bs)), drift + g.header + bs + nbs - size)
  {
    hide FreeListed, Spaced, Evens, Coalesced, Blocks, FreeSum;
    SwallowedByUsed(g, s, i, k);
    var h, bs := g.header, Gap(g.header, s.all, i);
    var x := FreeSum(h, s.all, s.used) + drift;
    WrapAdd(x, h);
    WrapAdd(x + h, bs - size);
  }

  predicate Known(b: map<Addr, bv8>, dst: Addr, src: Addr, x: Addr)
    requires dst <= x
  {
    x - dst + src in b
  }

  // b after its n bytes at src are copied over those at dst; a byte whose source is unknown becomes unknown.
  function Copied(b: map<Addr, bv8>, dst: Addr, src: Addr, n: nat): map<Addr, bv8> {
    var kept := set x | x in b && !(dst <= x < dst + n);
    var copied := set x | dst <= x < dst + n && Known(b, dst, src, x);
    map x | x in kept + copied :: if dst <= x < dst + n then b[x - dst + src] else b[x]
  }

  lemma CopiedAt(b: map<Addr, bv8>, dst: Addr, src: Addr, n: nat, x: Addr)
    ensures var c := Copied(b, dst, src, n);
      if dst <= x < dst + n then (x in c <==> x - dst + src in b) && (x in c ==> c[x] == b[x - dst + src])
      else (x in c <==> x in b) && (x in c ==> c[x] == b[x])
  {
  }

  // The n bytes of b1 at dst are those of b0 at src.
  ghost predicate Transfer(b0: map<Addr, bv8>, src: Addr, b1: map<Addr, bv8>, dst: Addr, n: int) {
    forall j: nat {:trigger Passed(b0, src, b1, dst, j)} | j < n :: Passed(b0, src, b1, dst, j)
  }

  ghost predicate Passed(b0: map<Addr, bv8>, src: Addr, b1: map<Addr, bv8>, dst: Addr, j: nat) {
    SameByte(b0, src + j, b1, dst + j)
  }

  // No header reaches into the data of item i.
  lemma DataClear(g: Geo, s: Shape, i: nat)
    requires g.Sound() && Tiled(g, s) && 1 <= i < |s.used|
    ensures forall c | c in Chain(g, s.all) :: c + g.header <= s.all[i] + g.header || s.all[i + 1] <= c
  {
    InPool(g, s, i);
    InPool(g, s, i + 1);
    forall j | 0 <= j < |s.used| ensures s.all[j] + g.header <= s.all[i] + g.header || s.all[i + 1] <= s.all[j] {
      if 1 <= j < i { Apart(g, s, j, i); }
      if j > i + 1 { Apart(g, s, i + 1, j); }
    }
  }

  lemma SameBytesTwice(from: Addr, n: int, b0: map<Addr, bv8>, b1: map<Addr, bv8>, b2: map<Addr, bv8>)
    requires SameBytes(from, n, b0, b1) && SameBytes(from, n, b1, b2)
    ensures SameBytes(from, n, b0, b2)
  {
    forall x: Addr | from <= x < from + n ensures SameByte(b0, x, b2, x) {
      assert SameByte(b0, x, b1, x) && SameByte(b1, x, b2, x);
    }
  }

  lemma SameDataSelf(h: nat, blocks: map<Addr, int>, b: map<Addr, bv8>)
    ensures SameData(h, blocks, b, b)
  {
  }

  lemma SameDataBelow(h: nat, small: map<Addr, int>, big: map<Addr, int>, b0: map<Addr, bv8>, b1: map<Addr, bv8>)
    requires SameData(h, big, b0, b1) && forall a | a in small :: a in big && small[a] == big[a]
    ensures SameData(h, small, b0, b1)
  {
    forall a | a in small ensures SameBytes(a + h, small[a], b0, b1) {
      assert SameBytes(a + h, big[a], b0, b1);
    }
  }

  // Allocating, then copying and freeing: what the data becomes.
  lemma MovedData(h: nat, live: map<Addr, int>, item: Addr, item': Addr, n: nat, b0: map<Addr, bv8>, b1: map<Addr, bv8>, b2: map<Addr, bv8>)
    requires item in live && live[item] == n && item' !in live && SameData(h, live, b0, b1)
    requires Transfer(b1, item + h, b2, item' + h, n)
    requires SameData(h, live - {item}, b1, b2)
    ensures Transfer(b0, item + h, b2, item' + h, n) && SameData(h, live - {item}, b0, b2)
  {
    assert SameBytes(item + h, live[item], b0, b1);
    var src, dst := item + h, item' + h;
    forall j: nat | j < n ensures Passed(b0, src, b2, dst, j) {
      assert SameByte(b0, src + j, b1, src + j) && Passed(b1, src, b2, dst, j);
    }
    forall a | a in live - {item} ensures SameBytes(a + h, live[a], b0, b2) {
      SameBytesTwice(a + h, live[a], b0, b1, b2);
    }
  }

  ghost function Min(x: int, y: int): int { if x < y then x else y }

  // ----- What each call makes of the shape

  // Where x first occurs.
  ghost function IndexOf(q: seq<Addr>, x: Addr): (i: nat)
    requires x in q
    ensures i < |q| && q[i] == x && forall j | 0 <= j < i :: q[j] != x
  {
    if q[0] == x then 0 else 1 + IndexOf(q[1..], x)
  }

  lemma IndexIs(g: Geo, s: Shape, i: nat)
    requires g.Sound() && Tiled(g, s) && i < |s.used|
    ensures IndexOf(s.all, s.all[i]) == i
  {
    Separated(g, s);
  }

  // The size item i seems to have: behind the last item comes the end sentinel, not the end of the pool.
  ghost function Size(g: Geo, s: Shape, i: nat): int
    requires |s.all| == |s.used| + 1 && i < |s.used|
  {
    Gap(g.header, s.all, i) + if i + 1 == |s.used| then g.Slack() else 0
  }

  // The 32-bit difference between item i's successor and the item is that size.
  lemma SizeSeen(g: Geo, s: Shape, i: nat)
    requires g.Sound() && Tiled(g, s) && 1 <= i < |s.used|
    ensures 0 <= Size(g, s, i) < U32 && Wrap32(Chain(g, s.all)[i + 1] - s.all[i] - g.header) == Size(g, s, i)
  {
    InPool(g, s, i);
    InPool(g, s, i + 1);
    assert Fits(g, s.all, i);
    WrapMultiple(Chain(g, s.all)[i + 1] - s.all[i] - g.header, 1);
  }

  ghost predicate Small(g: Geo, s: Shape, k: nat, size: nat)
    requires |s.all| == |s.used| + 1 && k < |s.free|
  {
    s.free[k] in s.all && IndexOf(s.all, s.free[k]) < |s.used| && Size(g, s, IndexOf(s.all, s.free[k])) < size
  }

  // Where the free list first offers size bytes from place j on, or its length.
  ghost function FitFrom(g: Geo, s: Shape, size: nat, j: nat): (k: nat)
    requires |s.all| == |s.used| + 1 && j <= |s.free|
    ensures j <= k <= |s.free| && (k < |s.free| ==> !Small(g, s, k, size))
    ensures forall m {:trigger Small(g, s, m, size)} | j <= m < k :: Small(g, s, m, size)
    decreases |s.free| - j
  {
    if j < |s.free| && Small(g, s, j, size) then FitFrom(g, s, size, j + 1) else j
  }

  ghost function Fit(g: Geo, s: Shape, size: nat): (k: nat)
    requires |s.all| == |s.used| + 1
    ensures k <= |s.free| && (k < |s.free| ==> !Small(g, s, k, size))
    ensures forall m {:trigger Small(g, s, m, size)} | 0 <= m < k :: Small(g, s, m, size)
  {
    FitFrom(g, s, size, 0)
  }

  // The heap behind nd_memheap_init.
  ghost function Opening(g: Geo): Shape { Shape([g.first, g.start, g.limit], [true, false], [g.start]) }

  lemma OpeningShape(g: Geo)
    requires g.Sound()
    ensures WellShaped(g, Opening(g))
  {
    var s := Opening(g);
    assert Fits(g, s.all, 1) && Listed(s, 0) && Listed(s, 1);
    assert FreeItem(s, s.free[0], 1);
    assert Backed(s, 0);
  }

  // The list offers nothing exactly when no free item seems large enough.
  lemma NoFit(g: Geo, s: Shape, size: nat)
    requires WellShaped(g, s)
    ensures Fit(g, s, size) == |s.free| <==> forall i | 1 <= i < |s.used| :: s.used[i] || Size(g, s, i) < size
  {
    var k := Fit(g, s, size);
    if k < |s.free| {
      assert Backed(s, k);
      var i: nat :| FreeItem(s, s.free[k], i);
      IndexIs(g, s, i);
      assert !Small(g, s, k, size);
    } else {
      forall i | 1 <= i < |s.used| && !s.used[i] ensures Size(g, s, i) < size {
        assert Listed(s, i);
        var j :| 0 <= j < |s.free| && s.free[j] == s.all[i];
        IndexIs(g, s, i);
        assert Small(g, s, j, size);
      }
    }
  }

  // A request that fits behind the pool is never refused: with the pool below the control block that is the header's
  // size and the distance between them, with the pool above it nearly the whole address space.
  lemma NeverRefused(g: Geo, s: Shape, size: nat)
    requires WellShaped(g, s) && size <= g.Slack()
    ensures Fit(g, s, size) < |s.free| && g.Slack() == if g.limit <= g.first then g.header + g.first - g.limit else U32 - (g.limit - g.Last())
  {
    NoFit(g, s, size);
    var i := |s.used| - 1;
    assert Fits(g, s.all, i);
    assert !s.used[i] && Size(g, s, i) >= size;
  }

  // The item at place k of the free list.
  ghost function FreeIndex(s: Shape, k: nat): (i: nat)
    requires FreeListed(s) && k < |s.free|
    ensures i < |s.used| && s.all[i] == s.free[k]
  {
    assert Backed(s, k);
    IndexOf(s.all, s.free[k])
  }

  // A call goes well, or destroys a link of the physical list, or puts a header or a block across the end of the pool.
  datatype Fate = Fine | Breaks | Overruns

  // Item i, free, is asked for size bytes.
  ghost function TakeFate(g: Geo, s: Shape, i: nat, size: nat): Fate
    requires |s.all| == |s.used| + 1 && i < |s.used|
  {
    if i + 1 == |s.used| && Gap(g.header, s.all, i) < size + g.header then Overruns
    else if Gap(g.header, s.all, i) >= size + g.header && size % 2 == 1 then Breaks
    else Fine
  }

  ghost function AllocFate(g: Geo, s: Shape, size: nat): Fate
    requires WellShaped(g, s)
  {
    var k := Fit(g, s, size);
    if k == |s.free| then Fine else TakeFate(g, s, FreeIndex(s, k), size)
  }

  ghost function AllocNext(g: Geo, s: Shape, size: nat): Shape
    requires WellShaped(g, s)
  {
    var k := Fit(g, s, size);
    if k == |s.free| then s
    else
      var i := FreeIndex(s, k);
      var a := s.all[i] + g.header + size;
      if Gap(g.header, s.all, i) >= size + g.header then Shape(Ins(s.all, i + 1, a), Ins(s.used, i + 1, false)[i := true], s.free[k := a])
      else Shape(s.all, s.used[i := true], Del(s.free, k))
  }

  ghost predicate Inner(s: Shape, i: nat) {
    |s.all| == |s.used| + 1 && 1 <= i && i + 1 < |s.used| && (s.used[i + 1] || s.all[i + 1] in s.free)
  }

  // Item i swallows the item after it.
  ghost function Swallow(s: Shape, i: nat): Shape
    requires Inner(s, i) && !s.used[i + 1]
  {
    Without(s, i + 1, Del(s.free, IndexOf(s.free, s.all[i + 1])))
  }

  // Item i becomes free, in one with the free items beside it.
  ghost function Join(s: Shape, i: nat): Shape
    requires Inner(s, i)
  {
    var t := if s.used[i + 1] then s else Swallow(s, i);
    if t.used[i - 1] then Shape(t.all, t.used[i := false], [t.all[i]] + t.free) else Without(t, i, t.free)
  }

  ghost function FreeNext(s: Shape, a: Addr): Shape {
    if a in s.all && Inner(s, IndexOf(s.all, a)) then Join(s, IndexOf(s.all, a)) else s
  }

  // The free item behind the live item i could cover size together with it, by the sizes they seem to have.
  ghost predicate CanGrow(g: Geo, s: Shape, i: nat, size: nat)
    requires |s.all| == |s.used| + 1 && i < |s.used|
  {
    1 <= i && i + 1 < |s.used| && !s.used[i + 1] && size <= Gap(g.header, s.all, i) + g.header + Size(g, s, i + 1)
  }

  // What the two items hold, without the header between them.
  ghost function Both(g: Geo, s: Shape, i: nat): int
    requires |s.all| == |s.used| + 1 && i + 1 < |s.used|
  {
    Gap(g.header, s.all, i) + Gap(g.header, s.all, i + 1)
  }

  // Growing in place swallows the whole free item.
  ghost predicate Absorbs(g: Geo, s: Shape, i: nat, size: nat)
    requires |s.all| == |s.used| + 1 && i + 1 < |s.used|
  {
    i + 2 < |s.used| && Both(g, s, i) - g.header < size <= Both(g, s, i)
  }

  ghost function GrowFate(g: Geo, s: Shape, i: nat, size: nat): Fate
    requires |s.all| == |s.used| + 1 && i + 1 < |s.used|
  {
    if size > Both(g, s, i) then if i + 2 == |s.used| then Overruns else Breaks
    else if size % 2 == 1 && !Absorbs(g, s, i, size) then Breaks
    else Fine
  }

  ghost function GrowNext(g: Geo, s: Shape, i: nat, size: nat): Shape
    requires Inner(s, i) && !s.used[i + 1]
  {
    if Absorbs(g, s, i, size) then Swallow(s, i) else Rested(Swallow(s, i), i, s.all[i] + g.header + size)
  }

  // realloc of the live item i
  ghost function ResizeFate(g: Geo, s: Shape, i: nat, size: nat): Fate
    requires WellShaped(g, s) && i < |s.used|
  {
    var n := Gap(g.header, s.all, i);
    if size <= n then if n - size >= g.header && size % 2 == 1 then Breaks else Fine
    else if CanGrow(g, s, i, size) then GrowFate(g, s, i, size)
    else AllocFate(g, s, size)
  }

  ghost function CutNext(g: Geo, s: Shape, i: nat, size: nat): Shape
    requires |s.all| == |s.used| + 1 && i < |s.used|
  {
    Shape(Ins(s.all, i + 1, s.all[i] + g.header + size), Ins(s.used, i + 1, false), s.free)
  }

  ghost function ResizeNext(g: Geo, s: Shape, i: nat, size: nat): Shape
    requires WellShaped(g, s) && i < |s.used|
  {
    var n := Gap(g.header, s.all, i);
    if size <= n then if n - size >= g.header then FreeNext(CutNext(g, s, i, size), s.all[i] + g.header + size) else s
    else if CanGrow(g, s, i, size) then assert Listed(s, i + 1); GrowNext(g, s, i, size)
    else if Fit(g, s, size) == |s.free| then s
    else FreeNext(AllocNext(g, s, size), s.all[i])
  }

  // What the space counter is left too high by.
  ghost function ResizeGain(g: Geo, s: Shape, i: nat, size: nat): (n: int)
    requires |s.all| == |s.used| + 1 && i < |s.used|
    ensures n == 0 || g.header <= n < 2 * g.header
  {
    if Gap(g.header, s.all, i) < size && CanGrow(g, s, i, size) && Absorbs(g, s, i, size) then g.header + Both(g, s, i) - size else 0
  }

  // The cases of realloc, one by one.
  lemma ResizeCases(g: Geo, s: Shape, i: nat, size: nat)
    requires WellShaped(g, s) && 1 <= i && i + 1 < |s.used|
    ensures var (n, fate, gain) := (Gap(g.header, s.all, i), ResizeFate(g, s, i, size), ResizeGain(g, s, i, size));
      && (CanGrow(g, s, i, size) <==> !s.used[i + 1] && size <= n + g.header + Size(g, s, i + 1))
      && if size <= n && n - size < g.header then fate == Fine && ResizeNext(g, s, i, size) == s && gain == 0
         else if size <= n then
           && fate == (if size % 2 == 1 then Breaks else Fine) && gain == 0
           && ResizeNext(g, s, i, size) == FreeNext(CutNext(g, s, i, size), s.all[i] + g.header + size)
         else if CanGrow(g, s, i, size) then Inner(s, i) && fate == GrowFate(g, s, i, size) && ResizeNext(g, s, i, size) == GrowNext(g, s, i, size)
         else
           && fate == AllocFate(g, s, size) && gain == 0
           && ResizeNext(g, s, i, size) == if Fit(g, s, size) == |s.free| then s else FreeNext(AllocNext(g, s, size), s.all[i])
  {
    assert Listed(s, i + 1);
  }

  // What the caller of alloc or realloc sees, or where the model stops.
  datatype Outcome = Given(data: Addr) | NoSpace | Corrupted | Overrun

  function FateOf(out: Outcome): Fate { if out == Corrupted then Breaks else if out == Overrun then Overruns else Fine }

  // A caller's request; the pointer 0 is ND_NULL.
  datatype Call = AllocCall(n: nat) | FreeCall(p: Addr) | ReallocCall(p: Addr, n: nat) {
    function size(): nat { if FreeCall? then 0 else n }
    function ptr(): Addr { if AllocCall? then 0 else p }
  }

  // ----- Calls and runs of calls

  // p is the data pointer of a live block.
  ghost predicate Owns(g: Geo, s: Shape, p: Addr) {
    && |s.all| == |s.used| + 1 && g.header <= p && p - g.header in s.all
    && 1 <= IndexOf(s.all, p - g.header) < |s.used| && s.used[IndexOf(s.all, p - g.header)]
  }

  lemma OwnsLive(g: Geo, s: Shape, p: Addr)
    requires WellShaped(g, s)
    ensures Owns(g, s, p) <==> p >= g.header && p - g.header in Blocks(g.header, s.all, s.used)
  {
    hide FreeListed, Coalesced, Spaced, EvenItems;
    Separated(g, s);
    if Owns(g, s, p) {
      BlockThere(g.header, s.all, s.used, IndexOf(s.all, p - g.header));
    }
    if p >= g.header && p - g.header in Blocks(g.header, s.all, s.used) {
      var i := BlockFrom(g.header, s.all, s.used, p - g.header);
      IndexIs(g, s, i);
    }
  }

  // A call with a pointer its caller does not hold is not made.
  ghost function CallFate(g: Geo, s: Shape, call: Call): Fate
    requires WellShaped(g, s)
  {
    match call
    case AllocCall(n) => AllocFate(g, s, n)
    case FreeCall(p) => Fine
    case ReallocCall(p, n) =>
      if p == 0 then AllocFate(g, s, n) else if Owns(g, s, p) then ResizeFate(g, s, IndexOf(s.all, p - g.header), n) else Fine
  }

  ghost function CallNext(g: Geo, s: Shape, call: Call): Shape
    requires WellShaped(g, s)
  {
    match call
    case AllocCall(n) => AllocNext(g, s, n)
    case FreeCall(p) => if p != 0 && Owns(g, s, p) then FreeNext(s, p - g.header) else s
    case ReallocCall(p, n) =>
      if p == 0 then AllocNext(g, s, n) else if Owns(g, s, p) then ResizeNext(g, s, IndexOf(s.all, p - g.header), n) else s
  }

  ghost function CallGain(g: Geo, s: Shape, call: Call): int
    requires WellShaped(g, s)
  {
    if call.ReallocCall? && call.p != 0 && Owns(g, s, call.p) then ResizeGain(g, s, IndexOf(s.all, call.p - g.header), call.n) else 0
  }

  lemma NotMade(g: Geo, s: Shape, call: Call)
    requires WellShaped(g, s) && call.ptr() != 0 && !Owns(g, s, call.ptr())
    ensures CallFate(g, s, call) == Fine && CallNext(g, s, call) == s && CallGain(g, s, call) == 0
  {
  }

  ghost predicate StepTo(g: Geo, s: Shape, call: Call, t: Shape) {
    WellShaped(g, s) && CallFate(g, s, call) == Fine && t == CallNext(g, s, call)
  }

  // trace goes through the calls, each of which goes well.
  ghost predicate Steps(g: Geo, calls: seq<Call>, trace: seq<Shape>) {
    && |trace| == |calls| + 1 && WellShaped(g, trace[|calls|])
    && forall j {:trigger trace[j], calls[j]} | 0 <= j < |calls| :: StepTo(g, trace[j], calls[j], trace[j + 1])
  }

  ghost function Gains(g: Geo, calls: seq<Call>, trace: seq<Shape>): int
    requires Steps(g, calls, trace)
    decreases |calls|
  {
    if calls == [] then 0
    else
      assert StepTo(g, trace[0], calls[0], trace[1]);
      CallGain(g, trace[0], calls[0]) + Gains(g, calls[1..], trace[1..])
  }

  lemma {:induction false} OneMore(g: Geo, calls: seq<Call>, trace: seq<Shape>, call: Call, t: Shape)
    requires Steps(g, calls, trace) && StepTo(g, trace[|calls|], call, t) && WellShaped(g, t)
    ensures Steps(g, calls + [call], trace + [t]) && Gains(g, calls + [call], trace + [t]) == Gains(g, calls, trace) + CallGain(g, trace[|calls|], call)
    decreases |calls|
  {
    hide StepTo, WellShaped, CallGain;
    if calls == [] {
      assert (calls + [call])[1..] == [];
    } else {
      OneMore(g, calls[1..], trace[1..], call, t);
      assert (calls + [call])[1..] == calls[1..] + [call] && (trace + [t])[1..] == trace[1..] + [t];
    }
  }

  // Only realloc makes the counter drift, upwards and by less than two headers a call.
  lemma {:induction false} GainsBounded(g: Geo, calls: seq<Call>, trace: seq<Shape>)
    requires Steps(g, calls, trace)
    ensures 0 <= Gains(g, calls, trace) <= |calls| * (2 * g.header)
    ensures (forall c | c in calls :: !c.ReallocCall?) ==> Gains(g, calls, trace) == 0
    decreases |calls|
  {
    hide WellShaped, CallGain;
    if calls != [] {
      assert StepTo(g, trace[0], calls[0], trace[1]) && calls[0] in calls;
      GainsBounded(g, calls[1..], trace[1..]);
      GainBounded(g, trace[0], calls[0]);
      OneTimesMore(|calls|, 2 * g.header);
    }
  }

  lemma OneTimesMore(n: nat, h: nat)
    requires n > 0
    ensures n * h == (n - 1) * h + h
  {
  }

  lemma GainBounded(g: Geo, s: Shape, call: Call)
    requires WellShaped(g, s)
    ensures 0 <= CallGain(g, s, call) <= 2 * g.header && (!call.ReallocCall? ==> CallGain(g, s, call) == 0)
  {
    hide WellShaped, ResizeGain;
  }

  class Heap {
    const g: Geo
    var next: map<Addr, nat>
    var prev: map<Addr, Addr>
    var nextFree: map<Addr, Addr>
    var prevFree: map<Addr, Addr>
    var available: nat
    // The headers whose fields are intact, and the other bytes whose value is known.
    var headers: set<Addr>
    var bytes: map<Addr, bv8>
    ghost var all: seq<Addr>
    ghost var used: seq<bool>
    ghost var free: seq<Addr>
    ghost var drift: int

    ghost function S(): Shape
      reads this`all, this`used, this`free
    {
      Shape(all, used, free)
    }

    function NextOf(a: Addr): Addr
      requires a in next
      reads this`next
    {
      Masked(next[a])
    }

    predicate IsUsed(a: Addr)
      requires a in next
      reads this`next
    {
      TagOf(next[a])
    }

    function DataSize(a: Addr): nat
      requires a in next
      reads this`next
    {
      Wrap32(NextOf(a) - a - g.header)
    }

    // ----- Memory

    predicate Clear(a: Addr, b: Addr) {
      a + g.header <= b || b + g.header <= a
    }

    predicate Inside(a: Addr, x: Addr) {
      a <= x < a + g.header
    }

    // No intact header overlaps another, or a byte of data.
    ghost predicate Sane()
      reads this`headers, this`bytes
    {
      && (forall a, b | a in headers && b in headers && a != b :: Clear(a, b))
      && (forall a, x | a in headers && x in bytes :: !Inside(a, x))
    }

    // item_init: a header is laid down at a.
    method ItemInit(a: Addr)
      requires Sane()
      modifies this`headers, this`bytes
      ensures Sane()
      ensures headers == (set x | x in old(headers) && (x == a || Clear(x, a))) + {a}
      ensures bytes == map x | x in old(bytes) && !Inside(a, x) :: old(bytes)[x]
    {
      headers := (set x | x in headers && (x == a || Clear(x, a))) + {a};
      bytes := map x | x in bytes && !Inside(a, x) :: bytes[x];
    }

    // ----- List helpers

    // The headers from the start sentinel to the end sentinel.
    ghost function Headers(): seq<Addr>
      requires |all| > 0
      reads this`all
    {
      Chain(g, all)
    }

    ghost predicate Phys()
      reads this`next, this`prev, this`all, this`used, this`headers
    {
      && |all| >= 3 && Chained(Headers(), used, next, prev)
      && g.first % 2 == 0 && g.Last() in next && next[g.Last()] == g.first + 1
      && forall a | a in Headers() :: a in headers
    }

    ghost predicate Ring()
      reads this`nextFree, this`prevFree, this`free
    {
      Ringed(g.first, free, nextFree, prevFree)
    }

    // The link after a does not lead to an intact header that leads back.
    ghost predicate BadLink(a: Addr)
      reads this`next, this`prev, this`headers
    {
      a in next && (NextOf(a) !in headers || NextOf(a) !in prev || prev[NextOf(a)] != a)
    }

    // What link i of the physical list reads.
    lemma LinkWords(i: nat)
      requires Phys() && i < |used|
      ensures |all| == |used| + 1 && all[i] == Headers()[i] && all[i] in next && next[all[i]] == Headers()[i + 1] + Tag(used[i]) && NextOf(all[i]) == Headers()[i + 1]
      ensures TagOf(next[all[i]]) == used[i] && Headers()[i + 1] in prev && prev[Headers()[i + 1]] == all[i] && all[i] != g.Last()
    {
      assert Hop(Headers(), used, next, prev, i);
    }

    method SetNext(a: Addr, b: Addr)
      requires a in next
      modifies this`next
      ensures next == old(next)[a := WithTag(b, TagOf(old(next)[a]))]
    {
      next := next[a := WithTag(b, IsUsed(a))];
    }

    // phys_list_insert_after
    method LinkAfter(anchor: Addr, a: Addr)
      requires anchor in next
      modifies this`next, this`prev
      ensures next == old(next)[a := old(NextOf(anchor))][anchor := WithTag(a, TagOf(old(next)[a := old(NextOf(anchor))][anchor]))]
      ensures prev == old(prev)[a := anchor][old(next)[a := old(NextOf(anchor))][anchor] / 2 * 2 := a]
    {
      next := next[a := NextOf(anchor)];
      prev := prev[a := anchor];
      prev := prev[NextOf(anchor) := a];
      SetNext(anchor, a);
    }

    method PhysInsertAfter(anchor: Addr, a: Addr, ghost i: nat)
      requires Phys() && i < |used| && all[i] == anchor && a in headers && a !in Headers()
      modifies this`next, this`prev, this`all, this`used
      ensures a % 2 == 0 ==> Phys() && all == Ins(old(all), i + 1, a) && used == Ins(old(used), i + 1, false)
      ensures a % 2 == 1 ==> anchor in next && NextOf(anchor) == a - 1
    {
      assert Hop(Headers(), used, next, prev, i);
      LinkAfter(anchor, a);
      if a % 2 == 0 {
        ChainInsert(Headers(), used, old(next), old(prev), i, a);
        assert Chain(g, Ins(all, i + 1, a)) == Ins(Headers(), i + 1, a);
        all, used := Ins(all, i + 1, a), Ins(used, i + 1, false);
      }
    }

    method PhysRemove(a: Addr, ghost i: nat)
      requires Phys() && 0 < i < |used| && all[i] == a && |all| > 3
      modifies this`next, this`prev, this`all, this`used
      ensures Phys() && all == Del(old(all), i) && used == Del(old(used), i)
      ensures a in prev && prev[a] == old(all)[i - 1]
    {
      hide Chained;
      LinkWords(i - 1);
      LinkWords(i);
      SetNext(prev[a], NextOf(a));
      prev := prev[NextOf(a) := prev[a]];
      ChainRemove(Headers(), used, old(next), old(prev), i);
      assert Chain(g, Del(all, i)) == Del(Headers(), i);
      all, used := Del(all, i), Del(used, i);
    }

    method SetUsed(a: Addr, b: bool, ghost i: nat)
      requires Phys() && i < |used| && all[i] == a
      modifies this`next, this`used
      ensures Phys() && used == old(used)[i := b]
    {
      assert Hop(Headers(), used, next, prev, i);
      next := next[a := WithTag(NextOf(a), b)];
      ChainTag(Headers(), used, old(next), prev, i, b);
      used := used[i := b];
    }

    method FreeInsertFirst(a: Addr)
      requires Ring() && a !in free && a != g.first
      modifies this`nextFree, this`prevFree, this`free
      ensures Ring() && free == [a] + old(free)
    {
      ghost var ring := [g.first] + free + [g.first];
      assert Step(ring, nextFree, prevFree, 0);
      nextFree := nextFree[a := nextFree[g.first]];
      prevFree := prevFree[a := g.first];
      prevFree := prevFree[nextFree[g.first] := a];
      nextFree := nextFree[g.first := a];
      RingInsert(g.first, free, old(nextFree), old(prevFree), a);
      free := [a] + free;
    }

    method FreeRemove(a: Addr, ghost k: nat)
      requires Ring() && k < |free| && free[k] == a
      modifies this`nextFree, this`prevFree, this`free
      ensures Ring() && free == Del(old(free), k)
    {
      ghost var ring := [g.first] + free + [g.first];
      assert Step(ring, nextFree, prevFree, k) && Step(ring, nextFree, prevFree, k + 1);
      nextFree := nextFree[prevFree[a] := nextFree[a]];
      prevFree := prevFree[nextFree[a] := prevFree[a]];
      RingRemove(g.first, free, old(nextFree), old(prevFree), k);
      free := Del(free, k);
    }

    method FreeReplace(a: Addr, b: Addr, ghost k: nat)
      requires Ring() && k < |free| && free[k] == a && b !in free && b != g.first
      modifies this`nextFree, this`prevFree, this`free
      ensures Ring() && free == old(free)[k := b]
    {
      ghost var ring := [g.first] + free + [g.first];
      assert Step(ring, nextFree, prevFree, k) && Step(ring, nextFree, prevFree, k + 1);
      prevFree := prevFree[b := prevFree[a]];
      nextFree := nextFree[b := nextFree[a]];
      prevFree := prevFree[nextFree[a] := b];
      nextFree := nextFree[prevFree[a] := b];
      RingReplace(g.first, free, old(nextFree), old(prevFree), k, b);
      free := free[k := b];
    }

    // ----- The invariant

    ghost predicate Valid()
      reads this
    {
      && Accounted(g, S(), available, drift) && Phys() && Ring() && Sane()
    }

    ghost function Live(): map<Addr, int>
      requires |all| == |used| + 1
      reads this`all, this`used
    {
      Blocks(g.header, all, used)
    }

    // Item i's header words, read through the tag.
    lemma ItemWords(i: nat)
      requires Phys() && g.Sound() && Tiled(g, S()) && 1 <= i < |used|
      ensures all[i] in next && NextOf(all[i]) == Headers()[i + 1] && IsUsed(all[i]) == used[i]
      ensures DataSize(all[i]) == Size(g, S(), i) && all[i] in headers && all[i] != g.first
      ensures all[i] in prev && prev[all[i]] == all[i - 1]
      ensures g.start <= all[i] && all[i] + g.header <= all[i + 1] <= g.limit
    {
      assert Hop(Headers(), used, next, prev, i) && Hop(Headers(), used, next, prev, i - 1);
      assert Fits(g, all, i);
      InPool(g, S(), i);
      InPool(g, S(), i + 1);
      SizeSeen(g, S(), i);
    }

    lemma FreeWords(k: nat) returns (i: nat)
      requires Phys() && WellFormed(g, S()) && k < |free|
      ensures 1 <= i < |used| && free[k] == all[i] && !used[i] && i == FreeIndex(S(), k)
      ensures free[k] in next && DataSize(free[k]) == Size(g, S(), i) && free[k] != g.first
    {
      assert Backed(S(), k);
      i :| FreeItem(S(), free[k], i);
      ItemWords(i);
      IndexIs(g, S(), i);
    }

    // ----- Alloc

    method FindFit(size: nat) returns (item: Addr, blockSize: nat)
      requires Phys() && Ring() && WellFormed(g, S())
      ensures var k := Fit(g, S(), size); if k < |free| then item == free[k] && item != g.first && item in next && blockSize == DataSize(item) else item == g.first
    {
      ghost var ring, k := [g.first] + free + [g.first], 0;
      assert Step(ring, nextFree, prevFree, 0);
      item, blockSize := nextFree[g.first], 0;
      while item != g.first
        invariant k <= |free| && item == ring[k + 1] && Fit(g, S(), size) == FitFrom(g, S(), size, k)
        decreases |free| - k
      {
        ghost var i := FreeWords(k);
        blockSize := DataSize(item);
        if blockSize >= size {
          break;
        }
        assert Step(ring, nextFree, prevFree, k + 1);
        item, k := nextFree[item], k + 1;
      }
      assert k < |free| ==> ring[k + 1] == free[k];
    }

    method TakeItem(item: Addr, blockSize: nat, ghost i: nat, ghost k: nat)
      requires Valid() && 1 <= i && i + 1 < |used| && !used[i] && all[i] == item && k < |free| && free[k] == item
      requires blockSize == Gap(g.header, all, i)
      modifies this
      ensures Valid() && drift == old(drift) && S() == Shape(old(all), old(used)[i := true], Del(old(free), k))
      ensures headers == old(headers) && bytes == old(bytes)
      ensures Live() == old(Live())[item := blockSize]
    {
      Separated(g, S());
      FreeRemove(item, k);
      available := Wrap32(available - blockSize);
      SetUsed(item, true, i);
      assert WellShaped(g, S()) by { TakeWhole(g, old(S()), i, k); }
      assert Balanced(g.header, available, all, used, drift) by {
        FreeSumTag(g.header, all, old(used), i, true);
        BalanceMoves(g.header, old(available), all, old(used), all, used, drift, 0 - blockSize as int);
      }
      BlocksTake(g.header, all, old(used), i);
    }

    // item_split_at and item_init: a header inside item i, leaving the item size bytes of data.
    method LayHeader(item: Addr, size: nat, ghost i: nat) returns (a: Addr)
      requires Phys() && Sane() && g.Sound() && Tiled(g, S()) && 1 <= i < |used| && all[i] == item
      requires size + g.header <= Gap(g.header, all, i)
      modifies this`headers, this`bytes
      ensures Phys() && Sane() && a in headers && a !in all && a !in Headers() && a == item + g.header + size && a != g.first
      ensures a % 2 == size % 2 && (a % 2 == 1 ==> a - 1 !in headers)
      ensures SameBytes(item + g.header, size, old(bytes), bytes)
      ensures SameData(g.header, Live() - {item}, old(bytes), bytes)
    {
      a := item + g.header + size;
      HeaderClear(g, S(), i, a);
      Between(g, S(), i, a);
      ItemInit(a);
      forall x: Addr | x < a || a + g.header <= x ensures SameByte(old(bytes), x, bytes, x) {}
      OthersKept(g, S(), i, old(bytes), bytes);
      Parity(item, g.header, size);
      assert a % 2 == 1 ==> !Clear(a, a - 1);
    }

    // The front of a free item goes to the caller; false when the new header's address is odd and the link to it is lost.
    method SplitItem(item: Addr, size: nat, ghost i: nat, ghost k: nat) returns (ok: bool)
      requires Valid() && 1 <= i < |used| && !used[i] && all[i] == item && k < |free| && free[k] == item
      requires size + g.header <= Gap(g.header, all, i)
      modifies this
      ensures ok <==> size % 2 == 0
      ensures !ok ==> BadLink(item)
      ensures ok ==> Valid() && drift == old(drift)
      ensures ok ==> var a := item + g.header + size;
        S() == Shape(Ins(old(all), i + 1, a), Ins(old(used), i + 1, false)[i := true], old(free)[k := a])
      ensures ok ==> Live() == old(Live())[item := size]
      ensures SameData(g.header, old(Live()), old(bytes), bytes)
    {
      hide Chained, Ringed, Tiled, FreeListed, Coalesced, Balanced, Blocks;
      ghost var s := S();
      FreeNoBlock(g, s, i);
      var a := LayHeader(item, size, i);
      ok := LinkSplit(item, a, i, k);
      if ok {
        SplitTagged(item, size, a, i, k, s);
      }
    }

    method LinkSplit(item: Addr, a: Addr, ghost i: nat, ghost k: nat) returns (ok: bool)
      requires Phys() && Ring() && FreeListed(S()) && i < |used| && all[i] == item && k < |free| && free[k] == item
      requires a in headers && a !in all && a !in Headers() && a != g.first && (a % 2 == 1 ==> a - 1 !in headers)
      modifies this`nextFree, this`prevFree, this`free, this`next, this`prev, this`all, this`used
      ensures ok <==> a % 2 == 0
      ensures if ok then Phys() && Ring() && S() == Shape(Ins(old(all), i + 1, a), Ins(old(used), i + 1, false), old(free)[k := a]) else BadLink(item)
    {
      FreeNotAt(S(), a);
      FreeReplace(item, a, k);
      PhysInsertAfter(item, a, i);
      ok := a % 2 == 0;
    }

    // The rest of a split, once the new header is linked into both lists.
    method SplitTagged(item: Addr, size: nat, a: Addr, ghost i: nat, ghost k: nat, ghost s: Shape)
      requires Phys() && Ring() && Sane() && WellShaped(g, s) && Balanced(g.header, available, s.all, s.used, drift)
      requires 1 <= i < |s.used| && !s.used[i] && s.all[i] == item && k < |s.free| && s.free[k] == item
      requires a % 2 == 0 && a == item + g.header + size && size + g.header <= Gap(g.header, s.all, i)
      requires a !in s.all && S() == Shape(Ins(s.all, i + 1, a), Ins(s.used, i + 1, false), s.free[k := a])
      modifies this`available, this`next, this`used
      ensures Valid() && S() == Shape(old(all), old(used)[i := true], old(free)) && Live() == Blocks(g.header, s.all, s.used)[item := size]
    {
      hide Chained, Ringed, FreeListed, Coalesced, Blocks;
      available := Wrap32(available - (size + g.header));
      SetUsed(item, true, i);
      assert WellShaped(g, S()) by { TakeFront(g, s, i, k, a); }
      assert Balanced(g.header, available, all, used, drift) by {
        FreeSumIns(g.header, s.all, s.used, i, a);
        FreeSumTag(g.header, all, old(used), i, true);
        BalanceMoves(g.header, old(available), s.all, s.used, all, used, drift, 0 - (size + g.header) as int);
      }
      SplitBlocks(g, s, i, a, size);
    }

    // A header has been laid across the end of the pool, or the item at a is in use across it.
    ghost predicate Across(a: Addr, size: nat)
      reads this`headers, this`next
    {
      || (a + g.header + size in headers && a + g.header + size + g.header > g.limit)
      || (a in next && IsUsed(a) && a + g.header + DataSize(a) > g.limit)
    }

    // _memheap_alloc
    method Alloc(size: nat) returns (out: Outcome)
      requires Valid() && size < U32
      modifies this
      ensures FateOf(out) == AllocFate(g, old(S()), size)
      ensures out == NoSpace <==> Fit(g, old(S()), size) == |old(free)|
      ensures out == NoSpace ==> Valid() && S() == old(S()) && drift == old(drift) && SameData(g.header, Live(), old(bytes), bytes)
      ensures out == Corrupted ==> BadLink(old(free)[Fit(g, old(S()), size)])
      ensures out == Overrun ==> Across(old(free)[Fit(g, old(S()), size)], size)
      ensures out.Given? ==> Allotted(old(Live()), old(bytes), size, out.data) && drift == old(drift) && S() == AllocNext(g, old(S()), size)
      ensures out.Given? ==> out.data == old(free)[Fit(g, old(S()), size)] + g.header
      ensures out.Given? ==> (var k := Fit(g, old(S()), size); var n := Gap(g.header, old(all), FreeIndex(old(S()), k));
        Live() == old(Live())[old(free)[k] := if n >= size + g.header then size else n])
    {
      hide Chained, Ringed, Spaced, EvenItems, FreeListed, Coalesced, Balanced, Blocks, BadLink, Sane, Across, Fit, Allotted;
      var item, blockSize;
      item, blockSize := FindFit(size);
      if item == g.first {
        return NoSpace;
      }
      ghost var k := Fit(g, S(), size);
      ghost var i := FreeWords(k);
      out := AllocAt(item, blockSize, size, i, k);
    }

    // The rest of an allocation, from the item found.
    method AllocAt(item: Addr, blockSize: nat, size: nat, ghost i: nat, ghost k: nat) returns (out: Outcome)
      requires Valid() && 1 <= i < |used| && !used[i] && all[i] == item && k < |free| && free[k] == item && item in next
      requires size <= blockSize == DataSize(item) == Size(g, S(), i)
      modifies this
      ensures FateOf(out) == TakeFate(g, old(S()), i, size) && out != NoSpace
      ensures out == Corrupted ==> BadLink(item)
      ensures out == Overrun ==> Across(item, size)
      ensures out.Given? ==> Allotted(old(Live()), old(bytes), size, out.data) && drift == old(drift) && out.data == item + g.header
      ensures out.Given? ==> S() == (var s, a := old(S()), item + g.header + size;
        if Gap(g.header, s.all, i) >= size + g.header then Shape(Ins(s.all, i + 1, a), Ins(s.used, i + 1, false)[i := true], s.free[k := a])
        else Shape(s.all, s.used[i := true], Del(s.free, k)))
      ensures out.Given? ==> Live() == old(Live())[item := if old(Gap(g.header, all, i)) >= size + g.header then size else old(Gap(g.header, all, i))]
    {
      hide Chained, Ringed, Spaced, EvenItems, FreeListed, Coalesced, Balanced, Blocks, BadLink, Sane;
      FitsSize(i, size);
      FreeNoBlock(g, S(), i);
      if blockSize >= Wrap32(size + g.header) {
        if item + g.header + size + g.header > g.limit {
          ItemInit(item + g.header + size);
          return Overrun;
        }
        var ok := SplitItem(item, size, i, k);
        if !ok {
          return Corrupted;
        }
      } else if item + g.header + blockSize > g.limit {
        TakeLast(item, blockSize, i, k);
        return Overrun;
      } else {
        TakeItem(item, blockSize, i, k);
      }
      out := Given(item + g.header);
    }

    // Within the address space, size + header does not wrap when an item seems large enough for size.
    lemma FitsSize(i: nat, size: nat)
      requires WellShaped(g, S()) && 1 <= i < |used| && Size(g, S(), i) >= size
      ensures Wrap32(size + g.header) == size + g.header
      ensures i + 1 == |used| ==> all[i] + g.header + Gap(g.header, all, i) == g.limit && Size(g, S(), i) >= Gap(g.header, all, i) + g.header
      ensures i + 1 < |used| ==> all[i] + g.header + Size(g, S(), i) <= g.limit
    {
      InPool(g, S(), i);
      InPool(g, S(), i + 1);
    }

    // The last item of the pool is taken whole, with what it seems to have.
    method TakeLast(item: Addr, blockSize: nat, ghost i: nat, ghost k: nat)
      requires Phys() && Ring() && WellFormed(g, S()) && i + 1 == |used| && all[i] == item && k < |free| && free[k] == item
      requires item in next && blockSize == DataSize(item)
      modifies this
      ensures item in next && IsUsed(item) && DataSize(item) == blockSize
    {
      FreeRemove(item, k);
      available := Wrap32(available - blockSize);
      ItemWords(i);
      SetUsed(item, true, i);
      ItemWords(i);
    }

    // ----- Free

    ghost predicate Returning(i: nat)
      reads this
    {
      Pending(g, S(), i, available, drift) && Phys() && Ring() && Sane()
    }

    ghost function LiveBut(i: nat): map<Addr, int>
      requires |all| == |used| + 1 && i < |used|
      reads this`all, this`used, this`free
    {
      BlocksBut(g.header, S(), i)
    }

    // The header words around item i, whatever its own tag.
    lemma LimboWords(i: nat)
      requires Phys() && Limbo(g, S(), i)
      ensures all[i] in next && NextOf(all[i]) == Headers()[i + 1] && DataSize(all[i]) == Size(g, S(), i)
      ensures all[i] in prev && prev[all[i]] == all[i - 1] && all[i - 1] in next && IsUsed(all[i - 1]) == used[i - 1]
      ensures Headers()[i + 1] in next && IsUsed(Headers()[i + 1]) == (i + 1 == |used| || used[i + 1])
      ensures all[i] !in free && all[i] != g.first
    {
      var s := S().(used := used[i := true]);
      hide Chained, Spaced, Coalesced, EvenItems;
      LinkWords(i);
      LinkWords(i - 1);
      if i + 1 < |used| { LinkWords(i + 1); }
      Separated(g, s);
      InPool(g, s, i);
      SizeSeen(g, s, i);
      FreeIff(s, i);
    }

    // free_list_remove and phys_list_remove together: item a goes, and its space with it.
    method Unlink(a: Addr, ghost i: nat, ghost k: nat)
      requires Phys() && Ring() && 0 < i < |used| && all[i] == a && |all| > 3 && k < |free| && free[k] == a
      modifies this`next, this`prev, this`nextFree, this`prevFree, this`all, this`used, this`free
      ensures Phys() && Ring() && S() == Without(old(S()), i, Del(old(free), k))
    {
      FreeRemove(a, k);
      PhysRemove(a, i);
    }

    method SwallowNext(item: Addr, nextItem: Addr, ghost i: nat)
      requires Returning(i) && i + 1 < |used| && !used[i + 1] && all[i] == item && all[i + 1] == nextItem
      modifies this`available, this`next, this`prev, this`nextFree, this`prevFree, this`all, this`used, this`free
      ensures Returning(i) && all[i] == item && (i + 1 < |used| ==> used[i + 1])
      ensures LiveBut(i) == old(LiveBut(i)) && old(Inner(S(), i)) && S() == Swallow(old(S()), i)
    {
      hide Chained, Ringed, Tiled, FreeListed, Coalesced, Balanced, Blocks;
      ghost var k := NextListed(g, S(), i);
      Swallowed(g, S(), i, k, available, drift);
      Unlink(nextItem, i + 1, k);
      available := Wrap32(available + g.header);
    }

    method MergeBack(item: Addr, ghost i: nat)
      requires Returning(i) && all[i] == item && !used[i - 1] && (i + 1 < |used| ==> used[i + 1])
      modifies this`available, this`next, this`prev, this`all, this`used
      ensures Valid() && Live() == old(LiveBut(i)) && S() == Without(old(S()), i, old(free))
    {
      hide Chained, Ringed, Tiled, FreeListed, Coalesced, Balanced, Blocks;
      Merged(g, S(), i, available, drift);
      PhysRemove(item, i);
      available := Wrap32(available + g.header);
      SetUsed(prev[item], false, i - 1);
    }

    method Release(item: Addr, ghost i: nat)
      requires Returning(i) && all[i] == item && used[i - 1] && (i + 1 < |used| ==> used[i + 1])
      modifies this`next, this`nextFree, this`prevFree, this`used, this`free
      ensures Valid() && Live() == old(LiveBut(i)) && S() == Shape(old(all), old(used)[i := false], [item] + old(free))
    {
      ReleaseAlone(g, S(), i);
      LimboWords(i);
      FreeInsertFirst(item);
      SetUsed(item, false, i);
    }

    lemma NextInner(i: nat)
      requires Limbo(g, S(), i) && i + 1 < |used|
      ensures Inner(S(), i)
    {
      assert Listed(S().(used := used[i := true]), i + 1);
    }

    // memheap_coalesce
    method Coalesce(item: Addr, ghost i: nat)
      requires Phys() && Ring() && Sane() && Limbo(g, S(), i) && i + 1 < |used| && all[i] == item
      requires Balanced(g.header, available, all, used[i := true], drift)
      modifies this`available, this`next, this`prev, this`nextFree, this`prevFree, this`all, this`used, this`free
      ensures Valid() && Live() == old(LiveBut(i)) && old(Inner(S(), i)) && S() == Join(old(S()), i)
    {
      assert Inner(S(), i) by { NextInner(i); }
      LimboWords(i);
      available := Wrap32(available + DataSize(item));
      CountFree(g.header, old(available), all, used, drift, i);
      var nextItem := NextOf(item);
      if !IsUsed(nextItem) {
        SwallowNext(item, nextItem, i);
      }
      LimboWords(i);
      if !IsUsed(prev[item]) {
        MergeBack(item, i);
      } else {
        Release(item, i);
      }
    }

    // _memheap_free
    method Free(ptr: Addr, ghost i: nat)
      requires Valid() && 1 <= i < |used| && used[i] && ptr == all[i] + g.header
      modifies this`available, this`next, this`prev, this`nextFree, this`prevFree, this`all, this`used, this`free
      ensures Valid() && Live() == old(Live()) - {ptr - g.header} && S() == FreeNext(old(S()), ptr - g.header)
    {
      Separated(g, S());
      BlocksRelease(g.header, all, used, i);
      IndexIs(g, S(), i);
      assert used[i := true] == used;
      Coalesce(ptr - g.header, i);
    }

    // ----- Realloc

    // realloc to a smaller size with room for a header behind it.
    method Shrink(item: Addr, size: nat, ghost i: nat) returns (ok: bool)
      requires Valid() && 1 <= i < |used| && used[i] && all[i] == item && size + g.header <= Gap(g.header, all, i)
      modifies this
      ensures ok <==> size % 2 == 0
      ensures !ok ==> BadLink(item)
      ensures ok ==> Valid() && drift == old(drift) && Live() == old(Live())[item := size]
      ensures ok ==> S() == FreeNext(CutNext(g, old(S()), i, size), item + g.header + size)
      ensures SameBytes(item + g.header, size, old(bytes), bytes)
      ensures SameData(g.header, old(Live()) - {item}, old(bytes), bytes)
    {
      hide Chained, Ringed, Tiled, FreeListed, Coalesced, Balanced, Blocks, Join, Inner;
      var a := LayHeader(item, size, i);
      if a % 2 == 0 { ShrinkTail(g, S(), i, a, size, available, drift); }
      PhysInsertAfter(item, a, i);
      ok := a % 2 == 0;
      if ok {
        ghost var s := S();
        IndexIs(g, s.(used := s.used[i + 1 := true]), i + 1);
        Coalesce(a, i + 1);
      }
    }

    // realloc growing into the free item behind, the rest of which stays free.
    method GrowSplit(item: Addr, size: nat, ghost i: nat) returns (ok: bool)
      requires Valid() && 1 <= i && i + 1 < |used| && used[i] && !used[i + 1] && all[i] == item && Inner(S(), i)
      requires Gap(g.header, all, i) < size <= Both(g, S(), i)
      modifies this
      ensures ok <==> size % 2 == 0
      ensures !ok ==> BadLink(item)
      ensures ok ==> Valid() && drift == old(drift) && Live() == old(Live())[item := size]
      ensures ok ==> S() == Rested(Swallow(old(S()), i), i, item + g.header + size)
      ensures SameBytes(item + g.header, size, old(bytes), bytes)
      ensures SameData(g.header, old(Live()) - {item}, old(bytes), bytes)
    {
      hide Chained, Ringed, Tiled, FreeListed, Coalesced, Balanced, Blocks;
      ghost var s := S();
      LiveWords(i);
      var nextItem, blockSize := NextOf(item), DataSize(item);
      ghost var k := FreePlace(g, s, i + 1);
      SwallowedByUsed(g, s, i, k);
      Unlink(nextItem, i + 1, k);
      assert Live() - {item} == old(Live()) - {item};
      ok := PlaceRest(item, size, blockSize, s, i, k);
    }

    method PlaceRest(item: Addr, size: nat, blockSize: nat, ghost s: Shape, ghost i: nat, ghost k: nat) returns (ok: bool)
      requires Phys() && Ring() && Sane() && Accounted(g, s, available, drift) && WellFormed(g, S())
      requires 1 <= i && i + 1 < |s.used| && s.used[i] && !s.used[i + 1] && s.all[i] == item && i < |used| && i + 1 < |all| && all[i] == item
      requires k < |s.free| && s.free[k] == s.all[i + 1] && S() == Without(s, i + 1, Del(s.free, k))
      requires blockSize == Gap(g.header, s.all, i) < size && size + g.header <= Gap(g.header, all, i)
      modifies this
      ensures ok <==> size % 2 == 0
      ensures !ok ==> BadLink(item)
      ensures ok ==> Valid() && drift == old(drift) && Live() == Blocks(g.header, s.all, s.used)[item := size]
      ensures ok ==> S() == Rested(old(S()), i, item + g.header + size)
      ensures SameBytes(item + g.header, size, old(bytes), bytes)
      ensures SameData(g.header, old(Live()) - {item}, old(bytes), bytes)
    {
      hide Chained, Ringed, Tiled, FreeListed, Coalesced, Balanced, Blocks, Sane, SameData, SameBytes, Accounted;
      var a := LayHeader(item, size, i);
      FreeNotAt(S(), a);
      assert all[i + 1] == s.all[i + 2];
      if a % 2 == 0 { RestFree(g, s, i, k, a, size, available, drift); }
      PhysInsertAfter(item, a, i);
      ok := a % 2 == 0;
      if ok {
        ListRest(a, size - blockSize);
      }
    }

    method ListRest(a: Addr, n: int)
      requires Phys() && Ring() && Sane() && a !in free && a != g.first
      requires Accounted(g, Shape(all, used, [a] + free), Wrap32(available - n), drift)
      modifies this`available, this`nextFree, this`prevFree, this`free
      ensures Valid() && S() == Shape(old(all), old(used), [a] + old(free)) && drift == old(drift)
    {
      hide Chained, Ringed, Accounted;
      FreeInsertFirst(a);
      available := Wrap32(available - n);
    }

    // realloc growing over the whole free item behind: the counter keeps what was absorbed.
    method GrowAbsorb(item: Addr, size: nat, ghost i: nat)
      requires Valid() && 1 <= i && i + 2 < |used| && used[i] && !used[i + 1] && all[i] == item && Inner(S(), i)
      requires Gap(g.header, all, i) < size
      modifies this
      ensures Valid() && bytes == old(bytes) && S() == Swallow(old(S()), i)
      ensures drift == old(drift) + g.header + old(Gap(g.header, all, i) + Gap(g.header, all, i + 1)) - size
      ensures Live() == old(Live())[item := old(Gap(g.header, all, i) + g.header + Gap(g.header, all, i + 1))]
    {
      hide Chained, Ringed, Tiled, FreeListed, Coalesced, Balanced, Blocks, Sane, Accounted;
      ghost var s := S();
      LiveWords(i);
      var nextItem, blockSize := NextOf(item), DataSize(item);
      ShapeOk();
      ghost var k := FreePlace(g, s, i + 1);
      SwallowedByUsed(g, s, i, k);
      Unlink(nextItem, i + 1, k);
      Absorbed(g, s, i, k, size, available, drift);
      Recount(size - blockSize, g.header + blockSize + Gap(g.header, s.all, i + 1) - size);
    }

    method Recount(n: int, ghost gain: int)
      requires Phys() && Ring() && Sane() && Accounted(g, S(), Wrap32(Wrap32(available + g.header) - n), drift + gain)
      modifies this`available, this`drift
      ensures Valid() && S() == old(S()) && drift == old(drift) + gain
    {
      hide Chained, Ringed, Accounted;
      available := Wrap32(available + g.header);
      available := Wrap32(available - n);
      drift := drift + gain;
    }

    lemma ShapeOk()
      requires Valid()
      ensures WellShaped(g, S())
    {
    }

    // A live item is not the last of the pool; what its header and the next one show.
    lemma LiveWords(i: nat)
      requires Valid() && 1 <= i < |used| && used[i]
      ensures i + 1 < |used| && all[i] in next && NextOf(all[i]) == all[i + 1] && DataSize(all[i]) == Gap(g.header, all, i)
      ensures all[i + 1] in next && IsUsed(all[i + 1]) == used[i + 1] && DataSize(all[i + 1]) == Size(g, S(), i + 1)
      ensures g.start <= all[i] && all[i] + g.header <= all[i + 1] && all[i + 1] + g.header <= all[i + 2] <= g.limit && |all| == |used| + 1
    {
      ItemWords(i);
      ItemWords(i + 1);
    }

    // The unsigned guard let through a size beyond both blocks: the new header lands on the header that follows.
    method GrowOver(item: Addr, size: nat, ghost i: nat)
      requires Valid() && 1 <= i && i + 2 < |used| && used[i] && !used[i + 1] && all[i] == item
      requires Both(g, S(), i) < size <= Both(g, S(), i) + g.header
      modifies this
      ensures BadLink(item)
    {
      hide Ringed, FreeListed, Coalesced, Balanced, Blocks;
      LiveWords(i);
      ghost var k := FreePlace(g, S(), i + 1);
      ghost var after := all[i + 2];
      SwallowedByUsed(g, S(), i, k);
      Unlink(NextOf(item), i + 1, k);
      assert all[i + 1] == after;
      Overwrite(item, size, i);
    }

    method Overwrite(item: Addr, size: nat, ghost i: nat)
      requires Phys() && Sane() && WellShaped(g, S()) && 1 <= i && i + 1 < |used| && all[i] == item
      requires Gap(g.header, all, i) - g.header < size <= Gap(g.header, all, i)
      modifies this
      ensures BadLink(item)
    {
      hide Ringed, FreeListed, Coalesced, Balanced, Blocks;
      ItemWords(i);
      var a := item + g.header + size;
      ItemInit(a);
      if NextOf(item) == a {
        LinkAfter(item, a);
      }
    }

    // The live item i takes over the last item of the pool, all it seems to have.
    method GrowAcross(item: Addr, nextItem: Addr, ghost i: nat)
      requires Valid() && 1 <= i && i + 2 == |used| && used[i] && all[i] == item && all[i + 1] == nextItem
      modifies this`next, this`prev, this`nextFree, this`prevFree, this`all, this`used, this`free
      ensures item in next && IsUsed(item) && item + g.header + DataSize(item) > g.limit
    {
      hide Chained, Ringed, Balanced, Blocks;
      ghost var k := FreePlace(g, S(), i + 1);
      SwallowedByUsed(g, S(), i, k);
      Unlink(nextItem, i + 1, k);
      ItemWords(i);
    }

    // nd_memcpy between two places in the heap: known bytes are copied, headers under the copy are lost.
    method CopyBytes(dst: Addr, src: Addr, n: nat)
      requires Sane()
      modifies this`bytes, this`headers
      ensures Sane() && headers == (set a | a in old(headers) && !Under(dst, n, a))
      ensures bytes == Copied(old(bytes), dst, src, n)
    {
      headers := set a | a in headers && !Under(dst, n, a);
      bytes := Copied(bytes, dst, src, n);
      forall a, x | a in headers && x in bytes ensures !Inside(a, x) {
        CopiedAt(old(bytes), dst, src, n, x);
      }
    }

    // A write to n bytes at dst reaches into a header at a.
    predicate Under(dst: Addr, n: nat, a: Addr) {
      !(a + g.header <= dst || dst + n <= a)
    }

    lemma GuardWords(i: nat, size: nat)
      requires Valid() && 1 <= i < |used| && used[i] && i + 1 < |used| && CanGrow(g, S(), i, size)
      ensures var bs, nbs := Gap(g.header, all, i), Size(g, S(), i + 1);
        && 0 <= bs && 0 <= nbs && (Wrap32(bs + nbs - size) >= g.header <==> size > bs + nbs || bs + nbs - size >= g.header)
      ensures i + 2 == |used| ==> Size(g, S(), i + 1) >= Gap(g.header, all, i + 1) + g.header && all[i + 2] == g.limit
      ensures i + 2 < |used| ==> all[i + 2] + g.header <= g.limit
    {
      LiveWords(i);
      NextWords(i);
      WrapMultiple(Gap(g.header, all, i) + Size(g, S(), i + 1) - size, 1);
      if i + 2 < |used| { InPool(g, S(), i + 2); }
    }

    lemma NextWords(i: nat)
      requires Valid() && 1 <= i < |used| && used[i]
      ensures i + 1 < |used| && 2 * g.header < U32
      ensures var n := Gap(g.header, all, i) + g.header + Size(g, S(), i + 1); Wrap32(n) == n
    {
      InPool(g, S(), i);
      LiveWords(i);
      if i + 2 < |used| { InPool(g, S(), i + 2); }
    }

    // What the tests of the in-place growth tell apart.
    lemma GrowCases(i: nat, size: nat)
      requires Valid() && 1 <= i < |used| && used[i] && i + 1 < |used| && Gap(g.header, all, i) < size && CanGrow(g, S(), i, size) && Inner(S(), i)
      ensures var (s, bs, nbs) := (S(), Gap(g.header, all, i), Size(g, S(), i + 1));
        if Wrap32(bs + nbs - size) >= g.header then
          if all[i] + g.header + size + g.header > g.limit then GrowFate(g, s, i, size) == Overruns
          else if bs + nbs < size then GrowFate(g, s, i, size) == Breaks && i + 2 < |used|
          else
            && size <= Both(g, s, i) && GrowFate(g, s, i, size) == (if size % 2 == 1 then Breaks else Fine) && !Absorbs(g, s, i, size)
            && GrowNext(g, s, i, size) == Rested(Swallow(s, i), i, all[i] + g.header + size) && ResizeGain(g, s, i, size) == 0
        else if all[i + 1] + g.header + nbs > g.limit then GrowFate(g, s, i, size) == Overruns && i + 2 == |used|
        else
          && GrowFate(g, s, i, size) == Fine && Absorbs(g, s, i, size) && i + 2 < |used|
          && GrowNext(g, s, i, size) == Swallow(s, i) && ResizeGain(g, s, i, size) == g.header + Both(g, s, i) - size
    {
      hide Chained, Ringed, FreeListed, Coalesced, Balanced, Sane, Swallow, Rested;
      LiveWords(i);
      GuardWords(i, size);
    }

    // realloc to a size that the free item behind seems to cover.
    method Grow(item: Addr, size: nat, ghost i: nat) returns (out: Outcome)
      requires Valid() && 1 <= i < |used| && used[i] && all[i] == item && Gap(g.header, all, i) < size && CanGrow(g, S(), i, size) && Inner(S(), i)
      modifies this
      ensures FateOf(out) == GrowFate(g, old(S()), i, size) && out != NoSpace
      ensures out == Corrupted ==> BadLink(item)
      ensures out == Overrun ==> Across(item, size)
      ensures out.Given? ==> Valid() && out.data == item + g.header && drift == old(drift) + ResizeGain(g, old(S()), i, size)
      ensures out.Given? ==> S() == GrowNext(g, old(S()), i, size)
      ensures out.Given? ==> Live() == old(Live())[item := if Absorbs(g, old(S()), i, size) then old(Both(g, S(), i)) + g.header else size]
      ensures out.Given? ==> SameBytes(item + g.header, old(Gap(g.header, all, i)), old(bytes), bytes)
      ensures out.Given? ==> SameData(g.header, old(Live()) - {item}, old(bytes), bytes)
    {
      hide Chained, Ringed, Tiled, FreeListed, Coalesced, Balanced, Blocks, BadLink, Sane, GrowFate, GrowNext, ResizeGain,
        Absorbs, Swallow, Rested;
      LiveWords(i);
      GrowCases(i, size);
      var nextItem := NextOf(item);
      var blockSize, nextBlockSize := DataSize(item), DataSize(nextItem);
      if Wrap32(blockSize + nextBlockSize - size) >= g.header {
        if item + g.header + size + g.header > g.limit {
          ItemInit(item + g.header + size);
          return Overrun;
        }
        if blockSize + nextBlockSize < size {
          GrowOver(item, size, i);
          return Corrupted;
        }
        var ok := GrowSplit(item, size, i);
        return if ok then Given(item + g.header) else Corrupted;
      }
      if nextItem + g.header + nextBlockSize > g.limit {
        GrowAcross(item, nextItem, i);
        return Overrun;
      }
      GrowAbsorb(item, size, i);
      out := Given(item + g.header);
    }

    // Copies n bytes into the data of item i.
    method Fill(dst: Addr, src: Addr, n: nat, ghost i: nat)
      requires Valid() && 1 <= i < |used| && used[i] && dst == all[i] + g.header && n <= Gap(g.header, all, i)
      modifies this`bytes, this`headers
      ensures Valid() && Transfer(old(bytes), src, bytes, dst, n)
      ensures SameData(g.header, Live() - {all[i]}, old(bytes), bytes)
    {
      hide Chained, Ringed, FreeListed, Coalesced, Balanced, Blocks;
      LiveWords(i);
      DataClear(g, S(), i);
      CopyBytes(dst, src, n);
      forall j: nat | j < n ensures Passed(old(bytes), src, bytes, dst, j) {
        CopiedAt(old(bytes), dst, src, n, dst + j);
      }
      forall x: Addr | x < dst || dst + n <= x ensures SameByte(old(bytes), x, bytes, x) {
        CopiedAt(old(bytes), dst, src, n, x);
      }
      OthersKept(g, S(), i, old(bytes), bytes);
    }

    lemma BlockIndex(item: Addr) returns (i: nat)
      requires Phys() && WellShaped(g, S()) && item in Live()
      ensures 1 <= i && i + 1 < |used| && used[i] && all[i] == item && Live()[item] == Gap(g.header, all, i) && 0 <= Live()[item]
      ensures item in all && i == IndexOf(all, item)
    {
      i := BlockFrom(g.header, all, used, item);
      ItemWords(i);
      IndexIs(g, S(), i);
    }

    // realloc by moving: allocate, copy, free.
    method Move(ptr: Addr, size: nat) returns (out: Outcome)
      requires Valid() && g.header <= ptr && ptr - g.header in Live() && Live()[ptr - g.header] < size < U32
      modifies this
      ensures FateOf(out) == AllocFate(g, old(S()), size)
      ensures out == NoSpace <==> Fit(g, old(S()), size) == |old(free)|
      ensures out == NoSpace ==> Valid() && S() == old(S()) && drift == old(drift) && SameData(g.header, Live(), old(bytes), bytes)
      ensures out == Corrupted ==> BadLink(old(free)[Fit(g, old(S()), size)])
      ensures out == Overrun ==> Across(old(free)[Fit(g, old(S()), size)], size)
      ensures out.Given? ==> Resized(old(Live()), old(bytes), ptr, size, out.data) && drift == old(drift)
      ensures out.Given? ==> S() == FreeNext(AllocNext(g, old(S()), size), ptr - g.header)
    {
      hide Chained, Ringed, Spaced, EvenItems, FreeListed, Coalesced, Balanced, Blocks, Transfer, SameBytes, SameData, BadLink,
        Across, Resized, Sane, Fit, FreeNext, AllocNext, AllocFate;
      ghost var live, b0 := Live(), bytes;
      ghost var i := BlockIndex(ptr - g.header);
      LiveWords(i);
      var blockSize := DataSize(ptr - g.header);
      out := Alloc(size);
      if out.Given? {
        ghost var live1, b1 := Live(), bytes;
        MoveInto(ptr, out.data, blockSize);
        MovedAway(live, live1, b0, b1, ptr, size, out.data);
      }
    }

    method MoveInto(ptr: Addr, dst: Addr, n: nat)
      requires Valid() && g.header <= ptr && g.header <= dst && ptr != dst && ptr - g.header in Live() && dst - g.header in Live()
      requires Live()[ptr - g.header] == n <= Live()[dst - g.header]
      modifies this
      ensures Valid() && drift == old(drift) && Live() == old(Live()) - {ptr - g.header} && S() == FreeNext(old(S()), ptr - g.header)
      ensures Transfer(old(bytes), ptr, bytes, dst, n)
      ensures SameData(g.header, old(Live()) - {ptr - g.header, dst - g.header}, old(bytes), bytes)
    {
      hide Chained, Ringed, Spaced, FreeListed, Coalesced, Balanced, Blocks;
      ghost var i := BlockIndex(dst - g.header);
      Fill(dst, ptr, n, i);
      i := BlockIndex(ptr - g.header);
      SameDataBelow(g.header, Live() - {ptr - g.header, dst - g.header}, Live() - {dst - g.header}, old(bytes), bytes);
      Free(ptr, i);
    }

    // The caller holds a new block of at least size bytes at data, and everything else as before.
    ghost predicate Allotted(live: map<Addr, int>, b0: map<Addr, bv8>, size: nat, data: Addr)
      reads this
    {
      && Valid() && g.header <= data && data - g.header !in live
      && data - g.header in Live() && Live()[data - g.header] >= size
      && Live() == live[data - g.header := Live()[data - g.header]]
      && SameData(g.header, live, b0, bytes)
    }

    // The block at ptr has become one of at least size bytes at data, with the old contents as far as both reach.
    ghost predicate Resized(live: map<Addr, int>, b0: map<Addr, bv8>, ptr: Addr, size: nat, data: Addr)
      reads this
    {
      && Valid() && g.header <= ptr && ptr - g.header in live
      && Allotted(live - {ptr - g.header}, b0, size, data)
      && Transfer(b0, ptr, bytes, data, Min(live[ptr - g.header], size))
    }

    lemma Unmoved(live: map<Addr, int>, b0: map<Addr, bv8>, ptr: Addr, size: nat)
      requires Valid() && g.header <= ptr && ptr - g.header in live && size <= live[ptr - g.header] && live == Live() && bytes == b0
      ensures Resized(live, b0, ptr, size, ptr)
    {
      hide Chained, Ringed, Spaced, FreeListed, Coalesced, Balanced, Blocks, Sane;
    }

    lemma KeptInPlace(live: map<Addr, int>, b0: map<Addr, bv8>, ptr: Addr, size: nat, n: int)
      requires Valid() && g.header <= ptr && ptr - g.header in live && n >= size && Live() == live[ptr - g.header := n]
      requires SameBytes(ptr, Min(live[ptr - g.header], size), b0, bytes) && SameData(g.header, live - {ptr - g.header}, b0, bytes)
      ensures Resized(live, b0, ptr, size, ptr)
    {
      hide Chained, Ringed, Spaced, FreeListed, Coalesced, Balanced, Blocks, Sane, SameData;
      forall j: nat | j < Min(live[ptr - g.header], size) ensures Passed(b0, ptr, bytes, ptr, j) {
        assert SameByte(b0, ptr + j, bytes, ptr + j);
      }
      assert Live() == (live - {ptr - g.header})[ptr - g.header := n];
    }

    lemma MovedAway(live: map<Addr, int>, live1: map<Addr, int>, b0: map<Addr, bv8>, b1: map<Addr, bv8>, ptr: Addr, size: nat, data: Addr)
      requires Valid() && g.header <= ptr && ptr - g.header in live && 0 <= live[ptr - g.header] < size
      requires g.header <= data && data - g.header !in live && data - g.header in live1 && live1[data - g.header] >= size
      requires live1 == live[data - g.header := live1[data - g.header]] && Live() == live1 - {ptr - g.header}
      requires SameData(g.header, live, b0, b1)
      requires Transfer(b1, ptr, bytes, data, live[ptr - g.header])
      requires SameData(g.header, live1 - {ptr - g.header, data - g.header}, b1, bytes)
      ensures Resized(live, b0, ptr, size, data)
    {
      hide Chained, Ringed, Spaced, FreeListed, Coalesced, Balanced, Blocks, Sane, SameData, Transfer;
      var item, item' := ptr - g.header, data - g.header;
      SameDataBelow(g.header, live - {item}, live1 - {item, item'}, b1, bytes);
      MovedData(g.header, live, item, item', live[item], b0, b1, bytes);
      assert Live() == (live - {item})[item' := Live()[item']];
    }

    method ShrinkInPlace(ptr: Addr, size: nat, ghost i: nat) returns (out: Outcome)
      requires Valid() && g.header <= ptr && ptr - g.header in Live() && 1 <= i < |used| && used[i] && all[i] == ptr - g.header
      requires size + g.header <= Gap(g.header, all, i) == Live()[ptr - g.header]
      modifies this
      ensures out == if size % 2 == 1 then Corrupted else Given(ptr)
      ensures out == Corrupted ==> BadLink(ptr - g.header)
      ensures out.Given? ==> Resized(old(Live()), old(bytes), ptr, size, out.data) && drift == old(drift)
      ensures out.Given? ==> S() == FreeNext(CutNext(g, old(S()), i, size), ptr + size)
    {
      hide Chained, Ringed, Spaced, EvenItems, FreeListed, Coalesced, Balanced, Blocks, BadLink, Resized, Sane, FreeNext,
        CutNext, SameData;
      ghost var live, b0 := Live(), bytes;
      var ok := Shrink(ptr - g.header, size, i);
      if ok { KeptInPlace(live, b0, ptr, size, size); }
      out := if ok then Given(ptr) else Corrupted;
    }

    method GrowInPlace(ptr: Addr, size: nat, ghost i: nat) returns (out: Outcome)
      requires Valid() && g.header <= ptr && ptr - g.header in Live() && 1 <= i < |used| && used[i] && all[i] == ptr - g.header
      requires Live()[ptr - g.header] == Gap(g.header, all, i) < size && CanGrow(g, S(), i, size) && Inner(S(), i)
      modifies this
      ensures FateOf(out) == GrowFate(g, old(S()), i, size) && out != NoSpace
      ensures out == Corrupted ==> BadLink(ptr - g.header)
      ensures out == Overrun ==> Across(ptr - g.header, size)
      ensures out.Given? ==> Resized(old(Live()), old(bytes), ptr, size, out.data) && drift == old(drift) + ResizeGain(g, old(S()), i, size)
      ensures out.Given? ==> S() == GrowNext(g, old(S()), i, size)
    {
      hide Chained, Ringed, Spaced, EvenItems, FreeListed, Coalesced, Balanced, Blocks, BadLink, Across, Resized, Sane, GrowFate,
        GrowNext, ResizeGain, CanGrow, Inner, SameData;
      ghost var live, b0 := Live(), bytes;
      ghost var n := if Absorbs(g, S(), i, size) then Both(g, S(), i) + g.header else size;
      out := Grow(ptr - g.header, size, i);
      if out.Given? { KeptInPlace(live, b0, ptr, size, n); }
    }

    // nd_memheap_realloc of a live block.
    method Resize(ptr: Addr, size: nat) returns (out: Outcome, ghost i: nat)
      requires Valid() && size < U32 && g.header <= ptr && ptr - g.header in Live()
      modifies this
      ensures 1 <= i && i + 1 < |old(used)| && old(used)[i] && ptr - g.header in old(all) && i == IndexOf(old(all), ptr - g.header)
      ensures FateOf(out) == ResizeFate(g, old(S()), i, size)
      ensures out == Corrupted ==> exists a :: a in old(all) && BadLink(a)
      ensures out == Overrun ==> exists a :: a in old(all) && Across(a, size)
      ensures out == NoSpace <==> old(Gap(g.header, all, i)) < size && !CanGrow(g, old(S()), i, size) && Fit(g, old(S()), size) == |old(free)|
      ensures out == NoSpace ==> Valid() && Live() == old(Live()) && SameData(g.header, Live(), old(bytes), bytes)
      ensures out.Given? ==> Resized(old(Live()), old(bytes), ptr, size, out.data)
      ensures out.Given? || out.NoSpace? ==> S() == ResizeNext(g, old(S()), i, size) && drift == old(drift) + ResizeGain(g, old(S()), i, size)
    {
      hide Chained, Ringed, Spaced, EvenItems, FreeListed, Coalesced, Balanced, Blocks, Transfer, SameBytes, SameData, BadLink,
        Across, Resized, Sane, Fit,
        GrowFate, GrowNext, Absorbs, Inner, FreeNext, AllocNext, AllocFate, ResizeFate, ResizeNext, ResizeGain, CanGrow, CutNext;
      ghost var live, b0 := Live(), bytes;
      i := BlockIndex(ptr - g.header);
      LiveWords(i);
      ResizeCases(g, S(), i, size);
      var item := ptr - g.header;
      var blockSize := DataSize(item);
      if size == blockSize || (size < blockSize && blockSize - size < g.header) {
        Unmoved(live, b0, ptr, size);
        return Given(ptr), i;
      }
      if size < blockSize {
        out := ShrinkInPlace(ptr, size, i);
        return out, i;
      }
      var nextItem := NextOf(item);
      var nextBlockSize := DataSize(nextItem);
      NextWords(i);
      if !IsUsed(nextItem) && Wrap32(blockSize + g.header + nextBlockSize) >= size {
        out := GrowInPlace(ptr, size, i);
        return out, i;
      }
      if Fit(g, S(), size) < |free| { ghost var f := FreeWords(Fit(g, S(), size)); }
      out := Move(ptr, size);
    }

    // nd_memheap_init: one free item over the whole pool.
    constructor (g: Geo)
      requires g.Sound()
      ensures this.g == g && Valid() && S() == Opening(g) && Live() == map[] && drift == 0
    {
      this.g := g;
      available := g.limit - g.start - g.header;
      next := map[g.first := WithTag(g.start, true), g.start := g.Last(), g.Last() := WithTag(g.first, true)];
      prev := map[g.first := g.start, g.start := g.first, g.Last() := g.start];
      nextFree := map[g.first := g.start, g.start := g.first];
      prevFree := map[g.first := g.start, g.start := g.first];
      headers := {g.first, g.start, g.Last()};
      bytes := map[];
      all, used, free := [g.first, g.start, g.limit], [true, false], [g.start];
      drift := 0;
      new;
      Fresh();
    }

    lemma Fresh()
      requires g.Sound() && S() == Opening(g)
      requires next == map[g.first := WithTag(g.start, true), g.start := g.Last(), g.Last() := WithTag(g.first, true)]
      requires prev == map[g.first := g.start, g.start := g.first, g.Last() := g.start]
      requires nextFree == map[g.first := g.start, g.start := g.first] && prevFree == nextFree
      requires headers == {g.first, g.start, g.Last()} && bytes == map[]
      requires drift == 0 && available == g.limit - g.start - g.header
      ensures Valid() && Live() == map[]
    {
      OpeningShape(g);
      assert Headers() == [g.first, g.start, g.Last()];
      assert Chained(Headers(), used, next, prev) by {
        Separated(g, S());
        assert Hop(Headers(), used, next, prev, 0) && Hop(Headers(), used, next, prev, 1);
      }
      assert Ring() by {
        assert Step([g.first] + free + [g.first], nextFree, prevFree, 0) && Step([g.first] + free + [g.first], nextFree, prevFree, 1);
      }
      assert Blocks(g.header, all[..2], used[..1]) == map[];
      assert Sane();
      FreeSumTwo(g.header, all, used, 0);
      assert all[0..] == all && used[0..] == used;
    }

    // The counter shows the free space exactly when nothing has been absorbed, modulo its width.
    lemma CounterExact()
      requires Valid()
      ensures available == FreeSum(g.header, all, used) % U32 <==> drift % U32 == 0
    {
      var x := FreeSum(g.header, all, used);
      assert available == (x + drift) % U32;
      SameRemainder(x, drift);
    }

    // When every block has been freed, one free item spans the pool.
    lemma AllFreed()
      requires Valid() && Live() == map[]
      ensures S() == Opening(g) && g.start in next && NextOf(g.start) == g.Last()
      ensures FreeSum(g.header, all, used) == g.limit - g.start - g.header
    {
      assert |free| > 1 ==> free[0] != free[1];
      forall i | 1 <= i < |used| ensures !used[i] {
        Separated(g, S());
        if used[i] { BlockThere(g.header, all, used, i); }
      }
      OneItem(g, S());
      assert Listed(S(), 1);
      ItemWords(1);
      forall k | 0 <= k < |free| ensures free[k] == g.start {
        var i := FreeWords(k);
      }
      FreeSumTwo(g.header, all, used, 0);
      assert all[0..] == all && used[0..] == used;
    }

    // nd_memheap_free
    method FreePtr(ptr: Addr)
      requires Valid() && (ptr == 0 || (g.header <= ptr && ptr - g.header in Live()))
      modifies this
      ensures Valid() && drift == old(drift) && bytes == old(bytes)
      ensures Live() == (if ptr == 0 then old(Live()) else old(Live()) - {ptr - g.header})
      ensures S() == if ptr == 0 then old(S()) else FreeNext(old(S()), ptr - g.header)
    {
      if ptr != 0 {
        ghost var i := BlockIndex(ptr - g.header);
        Free(ptr, i);
      }
    }

    // The holder of a block writes a byte of it.
    method Store(x: Addr, v: bv8, ghost i: nat)
      requires Valid() && 1 <= i < |used| && used[i] && all[i] + g.header <= x < all[i + 1]
      modifies this`bytes, this`headers
      ensures Valid() && x in bytes && bytes[x] == v
      ensures forall y | y != x :: SameByte(old(bytes), y, bytes, y)
    {
      hide Chained, Ringed, FreeListed, Coalesced, Balanced, Blocks;
      LiveWords(i);
      DataClear(g, S(), i);
      headers := set a | a in headers && !Under(x, 1, a);
      bytes := bytes[x := v];
    }

    // ----- Whole runs

    // The data pointers the callers hold.
    ghost predicate Held(held: set<Addr>)
      requires |all| == |used| + 1
      reads this`all, this`used
    {
      && (forall p | p in held :: g.header <= p && p - g.header in Live())
      && (forall a | a in Live() :: a + g.header in held)
    }

    lemma HeldOwned(held: set<Addr>, p: Addr)
      requires Valid() && Held(held)
      ensures p in held <==> Owns(g, S(), p)
    {
      hide Chained, Ringed, Balanced, Sane, FreeListed, Coalesced, Spaced, Owns;
      OwnsLive(g, S(), p);
      if p >= g.header && p - g.header in Live() { assert (p - g.header) + g.header in held; }
    }

    // One call: the shape moves as the specification says, the counter goes too high by the gain, and what the callers
    // hold keeps its contents.
    method Perform(call: Call, held: set<Addr>) returns (held': set<Addr>, ok: bool)
      requires Valid() && Held(held) && call.size() < U32 && (call.ptr() == 0 || call.ptr() in held)
      modifies this
      ensures ok <==> CallFate(g, old(S()), call) == Fine
      ensures ok ==> Valid() && Held(held') && S() == CallNext(g, old(S()), call) && drift == old(drift) + CallGain(g, old(S()), call)
      ensures ok ==> SameData(g.header, if call.ptr() < g.header then old(Live()) else old(Live()) - {call.ptr() - g.header}, old(bytes), bytes)
    {
      hide Chained, Ringed, Spaced, FreeListed, Coalesced, Balanced, Blocks, Transfer, SameBytes, SameData, BadLink, Sane,
        FreeNext, AllocNext, AllocFate,
        ResizeFate, ResizeNext, ResizeGain, Owns;
      held', ok := held, true;
      ghost var live, b0 := Live(), bytes;
      SameDataSelf(g.header, live, b0);
      if call.ptr() != 0 { HeldOwned(held, call.ptr()); }
      match call
      case FreeCall(ptr) =>
        FreePtr(ptr);
        held' := held - {ptr};
        SameDataBelow(g.header, live - {ptr - g.header}, live, b0, bytes);
      case AllocCall(size) =>
        held', ok := PerformAlloc(size, held);
      case ReallocCall(ptr, size) =>
        if ptr == 0 {
          held', ok := PerformAlloc(size, held);
        } else {
          held', ok := PerformRealloc(ptr, size, held);
        }
    }

    method PerformRealloc(ptr: Addr, size: nat, held: set<Addr>) returns (held': set<Addr>, ok: bool)
      requires Valid() && Held(held) && size < U32 && ptr in held && Owns(g, S(), ptr)
      modifies this
      ensures var (s, i) := (old(S()), IndexOf(old(all), ptr - g.header));
        && (ok <==> ResizeFate(g, s, i, size) == Fine)
        && (ok ==> Valid() && Held(held') && S() == ResizeNext(g, s, i, size) && drift == old(drift) + ResizeGain(g, s, i, size))
      ensures ok ==> SameData(g.header, old(Live()) - {ptr - g.header}, old(bytes), bytes)
    {
      hide Chained, Ringed, Spaced, FreeListed, Coalesced, Balanced, Blocks, Transfer, SameBytes, SameData, BadLink, Across,
        Sane, ResizeFate, ResizeNext, ResizeGain, CanGrow;
      ghost var live, b0 := Live(), bytes;
      held' := held;
      var out;
      ghost var i;
      out, i := Resize(ptr, size);
      if out.Given? {
        held' := held - {ptr} + {out.data};
      } else if out.NoSpace? {
        SameDataBelow(g.header, live - {ptr - g.header}, live, b0, bytes);
      }
      ok := out.Given? || out.NoSpace?;
    }

    method PerformAlloc(size: nat, held: set<Addr>) returns (held': set<Addr>, ok: bool)
      requires Valid() && Held(held) && size < U32
      modifies this
      ensures ok <==> AllocFate(g, old(S()), size) == Fine
      ensures ok ==> Valid() && Held(held') && S() == AllocNext(g, old(S()), size) && drift == old(drift)
      ensures ok ==> SameData(g.header, old(Live()), old(bytes), bytes)
    {
      hide Chained, Ringed, Spaced, FreeListed, Coalesced, Balanced, Blocks, Transfer, SameBytes, BadLink, Sane, AllocFate;
      var out := Alloc(size);
      held', ok := if out.Given? then held + {out.data} else held, out.Given? || out.NoSpace?;
    }

    // Any run of calls on a heap with nothing handed out: it goes as the specification says, call by call, up to the
    // first one that breaks a link or crosses the end of the pool; the counter is too high by the gains.
    method Run(calls: seq<Call>) returns (held: set<Addr>, done: nat, ok: bool, ghost trace: seq<Shape>)
      requires Valid() && Live() == map[] && forall c | c in calls :: c.size() < U32
      modifies this
      ensures done <= |calls| && Steps(g, calls[..done], trace) && trace[0] == old(S())
      ensures if ok then done == |calls| && Valid() && Held(held) && S() == trace[done] && drift == old(drift) + Gains(g, calls[..done], trace)
              else done < |calls| && CallFate(g, trace[done], calls[done]) != Fine
      ensures ok && held == {} ==> S() == Opening(g)
    {
      hide Chained, Ringed, Spaced, FreeListed, Coalesced, Balanced, Blocks, Sane, SameData, CallFate, CallNext, CallGain, Owns;
      held, done, ok, trace := {}, 0, true, [S()];
      while done < |calls|
        invariant done <= |calls| && ok && Valid() && Held(held)
        invariant Steps(g, calls[..done], trace) && trace[0] == old(S()) && S() == trace[done] && drift == old(drift) + Gains(g, calls[..done], trace)
      {
        var call := calls[done];
        assert call in calls;
        assert calls[..done + 1] == calls[..done] + [call];
        if call.ptr() == 0 || call.ptr() in held {
          held, ok := Perform(call, held);
          if !ok { return; }
        } else {
          HeldOwned(held, call.ptr());
          NotMade(g, S(), call);
        }
        OneMore(g, calls[..done], trace, call, S());
        trace := trace + [S()];
        done := done + 1;
      }
      if held == {} {
        assert Live() == map[];
        AllFreed();
      }
    }
  }

  // ----- Where runs stop

  // What a heap just set up makes of a request.
  lemma FirstRequest(g: Geo, size: nat)
    requires g.Sound()
    ensures WellShaped(g, Opening(g))
    ensures var n := g.limit - g.start - g.header;
      && (Fit(g, Opening(g), size) == |Opening(g).free| <==> size > n + g.Slack())
      && AllocFate(g, Opening(g), size) == (if size > n + g.Slack() then Fine else if size + g.header > n then Overruns else if size % 2 == 1 then Breaks else Fine)
  {
    var s := Opening(g);
    OpeningShape(g);
    NoFit(g, s, size);
    assert Size(g, s, 1) == g.limit - g.start - g.header + g.Slack();
    if size <= g.limit - g.start - g.header + g.Slack() { OfferedFirst(g, s, 1, size); }
  }

  // Asked for all that its counter shows, a new heap crosses the end of its pool.
  lemma WholePoolOverruns(g: Geo)
    requires g.Sound()
    ensures WellShaped(g, Opening(g)) && AllocFate(g, Opening(g), g.limit - g.start - g.header) == Overruns
  {
    FirstRequest(g, g.limit - g.start - g.header);
    OpeningShape(g);
    NeverRefused(g, Opening(g), 0);
  }

  // With the control block right behind the pool, what crosses the end of the pool reaches into the start sentinel: the
  // new header overlaps it, or the block taken covers it.
  lemma OverrunHitsSentinel(g: Geo, s: Shape, size: nat)
    requires WellShaped(g, s) && g.limit == g.first && AllocFate(g, s, size) == Overruns
    ensures var i := |s.used| - 1;
      && i == FreeIndex(s, Fit(g, s, size)) && size <= Size(g, s, i)
      && if size + g.header <= Size(g, s, i) then var a := s.all[i] + g.header + size; a < g.first + g.header && g.first < a + g.header
         else s.all[i] + g.header + Size(g, s, i) == g.first + g.header
  {
    var k := Fit(g, s, size);
    var i := FreeIndex(s, k);
    assert Backed(s, k);
    var j: nat :| FreeItem(s, s.free[k], j);
    IndexIs(g, s, j);
    assert !Small(g, s, k, size);
  }

  // The item at the head of the free list serves the request.
  lemma OfferedFirst(g: Geo, s: Shape, i: nat, size: nat)
    requires WellShaped(g, s) && 1 <= i < |s.used| && |s.free| > 0 && s.free[0] == s.all[i] && Size(g, s, i) >= size
    ensures Fit(g, s, size) == 0 && FreeIndex(s, 0) == i
  {
    IndexIs(g, s, i);
    assert !Small(g, s, 0, size);
  }

  // A request served from the front of that item.
  lemma Served(g: Geo, s: Shape, i: nat, size: nat, t: Shape)
    requires WellShaped(g, s) && 1 <= i < |s.used| && !s.used[i] && |s.free| > 0 && s.free[0] == s.all[i]
    requires size % 2 == 0 && size + g.header <= Gap(g.header, s.all, i)
    requires var a := s.all[i] + g.header + size; t == Shape(Ins(s.all, i + 1, a), Ins(s.used, i + 1, false)[i := true], s.free[0 := a])
    ensures StepTo(g, s, AllocCall(size), t) && WellShaped(g, t)
  {
    assert Fits(g, s.all, i);
    assert i + 1 == |s.used| ==> g.Slack() >= 0;
    OfferedFirst(g, s, i, size);
    Separated(g, s);
    Parity(s.all[i], g.header, size);
    TakeFront(g, s, i, 0, s.all[i] + g.header + size);
  }

  // A pool of 244 bytes below its control block, with 20-byte headers; three blocks, the middle one given back.
  ghost const ExampleGeo: Geo := Geo(20, 1000, 1244, 1300)
  ghost const ExampleCalls: seq<Call> := [AllocCall(32), AllocCall(72), AllocCall(16), FreeCall(1072)]

  ghost function ExampleTrace(): seq<Shape> {
    [Opening(ExampleGeo),
     Shape([1300, 1000, 1052, 1244], [true, true, false], [1052]),
     Shape([1300, 1000, 1052, 1144, 1244], [true, true, true, false], [1144]),
     Shape([1300, 1000, 1052, 1144, 1180, 1244], [true, true, true, true, false], [1180]),
     Shape([1300, 1000, 1052, 1144, 1180, 1244], [true, true, false, true, false], [1052, 1180])]
  }

  lemma ExampleSteps()
    ensures Steps(ExampleGeo, ExampleCalls, ExampleTrace())
  {
    hide WellShaped, AllocFate, AllocNext;
    var g, c, tr := ExampleGeo, ExampleCalls, ExampleTrace();
    OpeningShape(g);
    Served(g, tr[0], 1, 32, tr[1]);
    Served(g, tr[1], 2, 72, tr[2]);
    Served(g, tr[2], 3, 16, tr[3]);
    MiddleFreed();
    forall j {:trigger tr[j], c[j]} | 0 <= j < |c| ensures StepTo(g, tr[j], c[j], tr[j + 1]) {
      assert j == 0 || j == 1 || j == 2 || j == 3;
    }
  }

  lemma MiddleFreed()
    requires WellShaped(ExampleGeo, ExampleTrace()[3])
    ensures StepTo(ExampleGeo, ExampleTrace()[3], FreeCall(1072), ExampleTrace()[4]) && WellShaped(ExampleGeo, ExampleTrace()[4])
  {
    var g, s, t := ExampleGeo, ExampleTrace()[3], ExampleTrace()[4];
    IndexIs(g, s, 2);
    assert s.used[2 := true] == s.used;
    ReleaseAlone(g, s, 2);
    hide WellShaped;
    assert s.used[2 := false] == t.used && [s.all[2]] + s.free == t.free;
  }

  // Growing the first block to 110 bytes passes the unsigned guard and destroys a link; to 90 bytes, it leaves the
  // counter 34 too high.
  lemma ResizeExamples()
    ensures var (g, s) := (ExampleGeo, ExampleTrace()[4]);
      && Steps(g, ExampleCalls, ExampleTrace()) && WellShaped(g, s)
      && CallFate(g, s, ReallocCall(1020, 110)) == Breaks
      && CallFate(g, s, ReallocCall(1020, 90)) == Fine && CallGain(g, s, ReallocCall(1020, 90)) == 34
  {
    ExampleSteps();
    IndexIs(ExampleGeo, ExampleTrace()[4], 1);
  }
}
