// The block pool of nd_mempool: a free chain threaded through the first word of each free block.
module MemPool {
  type Addr = nat

  // ND_ALIGN(x, a)
  function Align(x: nat, a: nat): (r: nat)
    requires a > 0
    ensures r % a == 0 && x <= r < x + a
  {
    RoundUp(x, a);
    (x + a - 1) / a * a
  }

  lemma RoundUp(x: nat, a: nat)
    requires a > 0
    ensures var r := (x + a - 1) / a * a; r % a == 0 && x <= r < x + a
  {
    var q := (x + a - 1) / a;
    MultipleIs(q, a);
  }

  lemma MultipleIs(q: nat, a: nat)
    requires a > 0
    ensures (q * a) % a == 0 && (q * a) / a == q
  {
    var q', r' := q * a / a, q * a % a;
    assert q * a == q' * a + r';
    if q' < q { AtMost(q' + 1, q, a); }
  }

  lemma AtMost(a: nat, b: nat, d: nat)
    requires a <= b
    ensures a * d <= b * d
  {
  }

  lemma WordFits(size: nat, word: nat)
    requires 0 < word && 0 < size && size % word == 0
    ensures word <= size
  {
    assert size == size / word * word;
    AtMost(1, size / word, word);
  }

  // Block i of a pool, as the loop of nd_mempool_init lays it down.
  function Block(start: Addr, size: nat, i: nat): Addr { start + i * size }

  lemma BlocksApart(start: Addr, size: nat, i: nat, j: nat)
    requires i < j
    ensures Block(start, size, i) + size <= Block(start, size, j)
  {
    AtMost(i + 1, j, size);
  }

  // nd_mempool_init keeps the rounded size but lays the chain with the size as given: the two agree on every block
  // exactly when the size is a multiple of the word, or there is no second block.
  lemma ChainMatchesSize(start: Addr, size: nat, word: nat, count: nat)
    requires word > 0
    ensures (forall i | 0 <= i < count :: Block(start, size, i) == Block(start, Align(size, word), i)) <==> size % word == 0 || count <= 1
  {
    var a := Align(size, word);
    if size % word == 0 {
      Aligned(size, word);
    } else if count > 1 {
      assert Block(start, size, 1) == start + size && Block(start, a, 1) == start + a;
    }
  }

  lemma Aligned(size: nat, word: nat)
    requires word > 0 && size % word == 0
    ensures Align(size, word) == size
  {
    var a := Align(size, word);
    var p, q := size / word, a / word;
    assert size == p * word && a == q * word;
    if p < q { AtMost(p + 1, q, word); }
  }

  datatype Request = AllocReq | FreeReq(ptr: Addr)

  class Pool {
    const start: Addr
    const size: nat
    const word: nat
    const count: nat
    var freeList: Addr
    var freeCount: nat
    // The words of the pool's memory that are known.
    var mem: map<Addr, Addr>
    ghost var chain: seq<Addr>
    ghost var out: set<Addr>

    ghost predicate IsBlock(a: Addr) { exists i :: 0 <= i < count && a == Block(start, size, i) }

    ghost predicate Step(i: nat)
      requires i + 1 < |chain|
      reads this
    {
      chain[i] in mem && mem[chain[i]] == chain[i + 1]
    }

    // The chain runs through the free blocks, each once, and the other blocks are out.
    ghost predicate Valid()
      reads this
    {
      && 0 < word <= size && freeCount == |chain| && |out| + |chain| == count
      && (chain != [] ==> freeList == chain[0] && chain[|chain| - 1] in mem)
      && (forall i {:trigger Step(i)} | 0 <= i < |chain| - 1 :: Step(i))
      && (forall i, j | 0 <= i < j < |chain| :: chain[i] != chain[j])
      && (forall a | a in chain :: IsBlock(a) && a !in out) && (forall a | a in out :: IsBlock(a))
    }

    // nd_mempool_init on a size that is a multiple of the word
    constructor (start: Addr, size: nat, word: nat, count: nat)
      requires 0 < word && 0 < size && size % word == 0
      ensures Valid() && out == {} && freeCount == count && this.start == start && this.size == size && this.count == count
      ensures forall i | 0 <= i < count :: Block(start, size, i) in chain
    {
      this.start, this.size, this.word, this.count := start, size, word, count;
      freeCount := count;
      mem, chain, out := map[], [], {};
      freeList := start;
      new;
      WordFits(size, word);
      Lay();
    }

    // The loop of nd_mempool_init.
    method Lay()
      requires 0 < word <= size && freeCount == count && freeList == start && out == {} && chain == []
      modifies this`mem, this`chain
      ensures Valid() && forall i | 0 <= i < count :: Block(start, size, i) in chain
    {
      hide Block;
      for i := 0 to count
        invariant |chain| == i && forall j {:trigger Laid(j)} | 0 <= j < i :: Laid(j)
      {
        label Loop:
        ghost var n := Block(start, size, i);
        forall j | 0 <= j < i ensures chain[j] != n { assert Laid(j); BlocksApart(start, size, j, i); }
        mem := mem[Block(start, size, i) := if i < count - 1 then Block(start, size, i + 1) else 0];
        chain := chain + [n];
        forall j | 0 <= j < i + 1 ensures Laid(j) { assert j < i ==> old@Loop(Laid(j)); }
      }
      AllLaid();
    }

    ghost predicate Laid(j: nat)
      requires j < |chain|
      reads this
    {
      && chain[j] == Block(start, size, j) && chain[j] in mem
      && (j + 1 < count ==> mem[chain[j]] == Block(start, size, j + 1))
    }

    lemma AllLaid()
      requires 0 < word <= size && freeCount == count == |chain| && freeList == start && out == {}
      requires forall j {:trigger Laid(j)} | 0 <= j < |chain| :: Laid(j)
      ensures Valid() && forall i | 0 <= i < count :: Block(start, size, i) in chain
    {
      assert Block(start, size, 0) == start;
      hide Block;
      forall i, j | 0 <= i < j < |chain| ensures chain[i] != chain[j] { assert Laid(i) && Laid(j); BlocksApart(start, size, i, j); }
      forall i | 0 <= i < |chain| - 1 ensures Step(i) { assert Laid(i) && Laid(i + 1); }
      forall a | a in chain ensures IsBlock(a) {
        var i :| 0 <= i < |chain| && chain[i] == a;
        assert Laid(i);
      }
      forall i | 0 <= i < count ensures Block(start, size, i) in chain { assert Laid(i); }
      if count > 0 { assert Laid(0) && Laid(count - 1); }
    }

    // What nd_mempool_alloc does once free_count is positive.
    method Take() returns (block: Addr)
      requires Valid() && freeCount > 0
      modifies this
      ensures Valid() && old(chain) == [block] + chain && out == old(out) + {block} && block !in old(out) && freeCount == old(freeCount) - 1
    {
      block := freeList;
      assert block == chain[0] && block in chain;
      if |chain| > 1 { assert Step(0); }
      freeList := mem[block];
      freeCount := freeCount - 1;
      chain, out := chain[1..], out + {block};
      Taken(block);
    }

    twostate lemma Taken(block: Addr)
      requires old(Valid()) && old(freeCount) > 0 && block == old(chain)[0] && mem == old(mem) && block in mem && freeList == mem[block]
      requires freeCount == old(freeCount) - 1 && chain == old(chain)[1..] && out == old(out) + {block}
      ensures Valid()
    {
      assert block in old(chain);
      forall i | 0 <= i < |chain| - 1 ensures Step(i) { assert old(Step(i + 1)); }
      if |chain| > 0 { assert old(Step(0)); }
      forall a | a in chain ensures IsBlock(a) && a !in out { assert a in old(chain); }
    }

    // nd_mempool_free up to the wake-up, of a block that is out
    method GiveBack(ptr: Addr)
      requires Valid() && ptr in out
      modifies this
      ensures Valid() && chain == [ptr] + old(chain) && out == old(out) - {ptr} && freeCount == old(freeCount) + 1
    {
      mem := mem[ptr := freeList];
      freeList := ptr;
      freeCount := freeCount + 1;
      chain, out := [ptr] + chain, out - {ptr};
      Given(ptr);
    }

    twostate lemma Given(ptr: Addr)
      requires old(Valid()) && ptr in old(out) && mem == old(mem)[ptr := old(freeList)] && freeList == ptr
      requires freeCount == old(freeCount) + 1 && chain == [ptr] + old(chain) && out == old(out) - {ptr}
      ensures Valid()
    {
      assert ptr !in old(chain);
      forall i | 0 <= i < |chain| - 1 ensures Step(i) {
        if i > 0 { assert old(Step(i - 1)) && chain[i] in old(chain); }
      }
      forall a | a in chain ensures IsBlock(a) && a !in out { assert a == ptr || a in old(chain); }
      if old(chain) != [] { assert chain[|chain| - 1] == old(chain)[|old(chain)| - 1]; }
    }

    // The holder of a block writes a word of it.
    method Store(block: Addr, a: Addr, w: Addr)
      requires Valid() && block in out && block <= a && a + word <= block + size
      modifies this`mem
      ensures Valid()
    {
      mem := mem[a := w];
      forall c | c in chain ensures c != a {
        var i :| 0 <= i < count && c == Block(start, size, i);
        var j :| 0 <= j < count && block == Block(start, size, j);
        if i < j { BlocksApart(start, size, i, j); } else if j < i { BlocksApart(start, size, j, i); }
      }
      forall i | 0 <= i < |chain| - 1 ensures Step(i) { assert old(Step(i)) && chain[i] in chain; }
    }

    // A pool with a free block has a distinct one for every free count; none is handed out twice in any run.
    method Run(reqs: seq<Request>) returns (held: set<Addr>)
      requires Valid() && out == {}
      modifies this
      ensures Valid() && held == out && |held| + freeCount == count
    {
      held := {};
      for i := 0 to |reqs|
        invariant Valid() && held == out
      {
        match reqs[i]
        case AllocReq =>
          if freeCount > 0 {
            var b := Take();
            held := held + {b};
          }
        case FreeReq(ptr) =>
          if ptr in held {
            GiveBack(ptr);
            held := held - {ptr};
          }
      }
    }
  }
}
