// nd_memcpy, little-endian: byte copies up to word alignment, whole words where both sides are aligned, and words spliced
// from two neighbours where they are not.
module MemCopy {
  // Four bytes, lowest address first, as a word.
  function Word(a: bv8, b: bv8, c: bv8, d: bv8): bv32 {
    (a as bv32) | ((b as bv32) << 8) | ((c as bv32) << 16) | ((d as bv32) << 24)
  }

  // Byte k of a word.
  function ByteOf(w: bv32, k: nat): bv8
    requires k < 4
  {
    match k
    case 0 => (w & 0xff) as bv8
    case 1 => ((w >> 8) & 0xff) as bv8
    case 2 => ((w >> 16) & 0xff) as bv8
    case 3 => ((w >> 24) & 0xff) as bv8
  }

  lemma WordBytes(a: bv8, b: bv8, c: bv8, d: bv8)
    ensures var w := Word(a, b, c, d); ByteOf(w, 0) == a && ByteOf(w, 1) == b && ByteOf(w, 2) == c && ByteOf(w, 3) == d
  {
  }

  // (x LS 8 * (4 - r)) | (y RS 8 * r)
  function Splice(r: nat, x: bv32, y: bv32): bv32
    requires 1 <= r <= 3
  {
    match r
    case 1 => (x >> 24) | (y << 8)
    case 2 => (x >> 16) | (y << 16)
    case 3 => (x >> 8) | (y << 24)
  }

  // Splicing two neighbouring words gives the word that starts r bytes before the second.
  lemma SpliceOne(a: bv8, b: bv8, c: bv8, d: bv8, e: bv8, f: bv8, g: bv8, h: bv8)
    ensures Splice(1, Word(a, b, c, d), Word(e, f, g, h)) == Word(d, e, f, g)
  {
  }

  lemma SpliceTwo(a: bv8, b: bv8, c: bv8, d: bv8, e: bv8, f: bv8, g: bv8, h: bv8)
    ensures Splice(2, Word(a, b, c, d), Word(e, f, g, h)) == Word(c, d, e, f)
  {
  }

  lemma SpliceThree(a: bv8, b: bv8, c: bv8, d: bv8, e: bv8, f: bv8, g: bv8, h: bv8)
    ensures Splice(3, Word(a, b, c, d), Word(e, f, g, h)) == Word(b, c, d, e)
  {
  }

  function WordAt(b: seq<bv8>, a: nat): bv32
    requires a + 4 <= |b|
  {
    Word(b[a], b[a + 1], b[a + 2], b[a + 3])
  }

  lemma SpliceAt(b: seq<bv8>, s: nat, r: nat)
    requires 1 <= r <= 3 && 4 <= s + r && s + r + 4 <= |b|
    ensures Splice(r, WordAt(b, s + r - 4), WordAt(b, s + r)) == WordAt(b, s)
  {
    hide Word, Splice;
    var a := s + r - 4;
    match r
    case 1 => SpliceOne(b[a], b[a + 1], b[a + 2], b[a + 3], b[a + 4], b[a + 5], b[a + 6], b[a + 7]);
    case 2 => SpliceTwo(b[a], b[a + 1], b[a + 2], b[a + 3], b[a + 4], b[a + 5], b[a + 6], b[a + 7]);
    case 3 => SpliceThree(b[a], b[a + 1], b[a + 2], b[a + 3], b[a + 4], b[a + 5], b[a + 6], b[a + 7]);
  }

  // One call: n bytes from src to dest, apart from each other, in a memory that held was.
  datatype Call = Call(was: seq<bv8>, dest: nat, src: nat, n: nat) {
    predicate Sane() {
      dest + n <= |was| && src + n <= |was| && (dest + n <= src || src + n <= dest)
    }
  }

  // The first p bytes have been copied, and nothing else has changed.
  ghost predicate Copied(m: array<bv8>, c: Call, p: nat)
    requires c.Sane() && p <= c.n
    reads m
  {
    && m.Length == |c.was|
    && forall i {:trigger Cell(m, c, p, i)} | 0 <= i < m.Length :: Cell(m, c, p, i)
  }

  ghost predicate Cell(m: array<bv8>, c: Call, p: nat, i: nat)
    requires c.Sane() && p <= c.n && i < m.Length == |c.was|
    reads m
  {
    m[i] == if c.dest <= i < c.dest + p then c.was[c.src + (i - c.dest)] else c.was[i]
  }

  predicate Aligned(a: nat) { a % 4 == 0 }

  lemma AlignedOn(a: nat)
    requires Aligned(a)
    ensures Aligned(a + 4) && Aligned(a + 8) && Aligned(a + 12) && Aligned(a + 16)
  {
  }

  lemma Ahead(d: nat)
    requires !Aligned(d)
    ensures 1 <= d % 4 <= 3 && Aligned(d + (4 - d % 4))
  {
  }

  // *(u32 *)s, inside the source only
  method LoadWord(m: array<bv8>, s: nat, ghost c: Call) returns (w: bv32)
    requires Aligned(s) && c.Sane() && c.src <= s && s + 4 <= c.src + c.n && c.src + c.n <= m.Length
    ensures w == Word(m[s], m[s + 1], m[s + 2], m[s + 3])
  {
    w := Word(m[s], m[s + 1], m[s + 2], m[s + 3]);
  }

  // *(u32 *)d = w
  method StoreWord(m: array<bv8>, d: nat, w: bv32)
    requires Aligned(d) && d + 4 <= m.Length
    modifies m
    ensures forall k | 0 <= k < 4 :: m[d + k] == ByteOf(w, k)
    ensures forall i | 0 <= i < m.Length && !(d <= i < d + 4) :: m[i] == old(m[i])
  {
    m[d], m[d + 1], m[d + 2], m[d + 3] := ByteOf(w, 0), ByteOf(w, 1), ByteOf(w, 2), ByteOf(w, 3);
    forall k | 0 <= k < 4 ensures m[d + k] == ByteOf(w, k) {
      assert k == 0 || k == 1 || k == 2 || k == 3;
    }
  }

  // The source is as it was, whatever has been copied.
  lemma SourceKept(m: array<bv8>, c: Call, p: nat, i: nat)
    requires c.Sane() && p <= c.n && Copied(m, c, p) && c.src <= i < c.src + c.n
    ensures i < m.Length && m[i] == c.was[i]
  {
    assert Cell(m, c, p, i);
  }

  // *d++ = *s++
  method MoveByte(m: array<bv8>, d: nat, s: nat, ghost c: Call, ghost p: nat)
    requires c.Sane() && p < c.n && Copied(m, c, p) && d == c.dest + p && s == c.src + p
    modifies m
    ensures Copied(m, c, p + 1)
  {
    SourceKept(m, c, p, s);
    m[d] := m[s];
    ghost var q := p + 1;
    forall i | 0 <= i < m.Length ensures Cell(m, c, q, i) {
      assert old(Cell(m, c, p, i));
    }
  }

  // *d++ = *s++, k times
  method MoveBytes(m: array<bv8>, d: nat, s: nat, k: nat, ghost c: Call, ghost p: nat)
    requires c.Sane() && p + k <= c.n && Copied(m, c, p) && d == c.dest + p && s == c.src + p
    modifies m
    ensures Copied(m, c, p + k)
  {
    for j := 0 to k
      invariant Copied(m, c, p + j)
    {
      MoveByte(m, d + j, s + j, c, p + j);
    }
  }

  // A store of the source's next word moves on by four bytes.
  method PutWord(m: array<bv8>, d: nat, w: bv32, ghost c: Call, ghost p: nat)
    requires c.Sane() && p + 4 <= c.n && Copied(m, c, p) && d == c.dest + p && Aligned(d) && w == WordAt(c.was, c.src + p)
    modifies m
    ensures Copied(m, c, p + 4)
  {
    hide Word, ByteOf;
    ghost var a := c.src + p;
    WordBytes(c.was[a], c.was[a + 1], c.was[a + 2], c.was[a + 3]);
    StoreWord(m, d, w);
    ghost var q := p + 4;
    forall i | 0 <= i < m.Length ensures Cell(m, c, q, i) {
      assert old(Cell(m, c, p, i));
      if d <= i < d + 4 {
        assert m[d + (i - d)] == ByteOf(w, i - d);
        assert i - d == 0 || i - d == 1 || i - d == 2 || i - d == 3;
      }
    }
  }

  method GetWord(m: array<bv8>, s: nat, ghost c: Call, ghost p: nat) returns (w: bv32)
    requires c.Sane() && p <= c.n && Copied(m, c, p) && Aligned(s) && c.src <= s && s + 4 <= c.src + c.n
    ensures w == WordAt(c.was, s)
  {
    hide Word;
    w := LoadWord(m, s, c);
    SourceKept(m, c, p, s);
    SourceKept(m, c, p, s + 1);
    SourceKept(m, c, p, s + 2);
    SourceKept(m, c, p, s + 3);
  }

  method MoveWord(m: array<bv8>, d: nat, s: nat, ghost c: Call, ghost p: nat)
    requires c.Sane() && p + 4 <= c.n && Copied(m, c, p) && d == c.dest + p && s == c.src + p && Aligned(d) && Aligned(s)
    modifies m
    ensures Copied(m, c, p + 4)
  {
    var w := GetWord(m, s, c, p);
    PutWord(m, d, w, c, p);
  }

  // n & b for b a power of two
  predicate BitSet(n: nat, b: nat)
    requires b > 0
  {
    (n / b) % 2 == 1
  }

  // What the bits of n from b / 2 down amount to.
  function Below(n: nat, b: nat): nat
    requires b > 0
  {
    n % b
  }

  // Bit b takes b bytes and leaves the lower bits.
  lemma BitPart(n: nat, b: nat)
    requires b == 1 || b == 2 || b == 4 || b == 8 || b == 16
    ensures Below(n, 2 * b) == (if BitSet(n, b) then b else 0) + Below(n, b)
  {
    match b
    case 1 => BitOne(n);
    case 2 => BitTwo(n);
    case 4 => BitFour(n);
    case 8 => BitEight(n);
    case 16 => BitSixteen(n);
  }

  lemma BitOne(n: nat)
    ensures n % 2 == (if n / 1 % 2 == 1 then 1 else 0) + n % 1
  {
  }

  lemma BitTwo(n: nat)
    ensures n % 4 == (if n / 2 % 2 == 1 then 2 else 0) + n % 2
  {
  }

  lemma BitFour(n: nat)
    ensures n % 8 == (if n / 4 % 2 == 1 then 4 else 0) + n % 4
  {
  }

  lemma BitEight(n: nat)
    ensures n % 16 == (if n / 8 % 2 == 1 then 8 else 0) + n % 8
  {
  }

  lemma BitSixteen(n: nat)
    ensures n % 32 == (if n / 16 % 2 == 1 then 16 else 0) + n % 16
  {
  }

  lemma NoneBelow(n: nat)
    ensures Below(n, 1) == 0 && (n < 16 ==> Below(n, 16) == n) && (n < 32 ==> Below(n, 32) == n)
  {
  }

  // Bytes before the source is aligned, or until nothing is left.
  method AlignSource(m: array<bv8>, dest: nat, src: nat, n: nat, ghost c: Call) returns (p: nat)
    requires c.Sane() && c.dest == dest && c.src == src && c.n == n && Copied(m, c, 0)
    modifies m
    ensures p <= n && Copied(m, c, p) && (Aligned(src + p) || p == n)
  {
    p := 0;
    while !Aligned(src + p) && p != n
      invariant p <= n && Copied(m, c, p)
      decreases n - p
    {
      MoveByte(m, dest + p, src + p, c, p);
      p := p + 1;
    }
  }

  // Both sides aligned: four words a round, then the rest by the bits of its length.
  method CopyAligned(m: array<bv8>, d: nat, s: nat, n: nat, ghost c: Call, ghost p0: nat)
    requires c.Sane() && p0 + n == c.n && Copied(m, c, p0) && d == c.dest + p0 && s == c.src + p0 && Aligned(d) && (Aligned(s) || n == 0)
    modifies m
    ensures Copied(m, c, c.n)
  {
    hide Aligned;
    var p := 0;
    while n - p >= 16
      invariant p <= n && Aligned(d + p) && (Aligned(s + p) || n == 0) && Copied(m, c, p0 + p)
    {
      AlignedOn(d + p);
      AlignedOn(s + p);
      MoveFour(m, d + p, s + p, c, p0 + p);
      p := p + 16;
    }
    AlignedTail(m, d + p, s + p, n - p, c, p0 + p);
  }

  method MoveFour(m: array<bv8>, d: nat, s: nat, ghost c: Call, ghost p: nat)
    requires c.Sane() && p + 16 <= c.n && Copied(m, c, p) && d == c.dest + p && s == c.src + p && Aligned(d) && Aligned(s)
    modifies m
    ensures Copied(m, c, p + 16)
  {
    hide Aligned;
    AlignedOn(d);
    AlignedOn(s);
    MoveWord(m, d + 0, s + 0, c, p);
    MoveWord(m, d + 4, s + 4, c, p + 4);
    MoveWord(m, d + 8, s + 8, c, p + 8);
    MoveWord(m, d + 12, s + 12, c, p + 12);
  }

  method AlignedTail(m: array<bv8>, d: nat, s: nat, n: nat, ghost c: Call, ghost p0: nat)
    requires c.Sane() && p0 + n == c.n && n < 16 && Copied(m, c, p0) && d == c.dest + p0 && s == c.src + p0 && Aligned(d) && (Aligned(s) || n == 0)
    modifies m
    ensures Copied(m, c, c.n)
  {
    hide Below, BitSet, Aligned;
    NoneBelow(n);
    AlignedOn(d);
    if n != 0 { AlignedOn(s); }
    var p := 0;
    BitPart(n, 8);
    if BitSet(n, 8) {
      MoveWord(m, d + p, s + p, c, p0 + p);
      MoveWord(m, d + p + 4, s + p + 4, c, p0 + p + 4);
      p := p + 8;
    }
    BitPart(n, 4);
    if BitSet(n, 4) {
      MoveWord(m, d + p, s + p, c, p0 + p);
      p := p + 4;
    }
    p := TailStep(m, d, s, n, 2, p, c, p0);
    p := TailStep(m, d, s, n, 1, p, c, p0);
  }

  // The destination r bytes past alignment: it is aligned first, then each word is spliced from two source words.
  method CopyShifted(m: array<bv8>, d: nat, s: nat, n: nat, ghost c: Call, ghost p0: nat) returns (p: nat)
    requires c.Sane() && p0 + n == c.n && n >= 32 && Copied(m, c, p0) && d == c.dest + p0 && s == c.src + p0 && Aligned(s) && !Aligned(d)
    modifies m
    ensures p <= n && n - p < 32 && Copied(m, c, p0 + p)
  {
    hide Aligned;
    var r := d % 4;
    Ahead(d);
    AlignedOn(s);
    var x := GetWord(m, s, c, p0);
    MoveBytes(m, d, s, 4 - r, c, p0);
    p := 4 - r;
    assert s + p + r - 4 == s;
    while n - p >= 16 + r
      invariant 4 - r <= p && p + r <= n && Aligned(d + p) && Aligned(s + p + r) && Copied(m, c, p0 + p)
      invariant x == WordAt(c.was, s + p + r - 4)
      decreases n - p
    {
      AlignedOn(d + p);
      AlignedOn(s + p + r);
      x := ShiftFour(m, d + p, s + p, r, x, c, p0 + p);
      p := p + 16;
    }
  }

  method ShiftFour(m: array<bv8>, d: nat, s: nat, r: nat, x: bv32, ghost c: Call, ghost p: nat) returns (y: bv32)
    requires c.Sane() && 1 <= r <= 3 && 4 <= s + r && p + 16 + r <= c.n && Copied(m, c, p) && d == c.dest + p && s == c.src + p
    requires Aligned(d) && Aligned(s + r) && x == WordAt(c.was, s + r - 4)
    modifies m
    ensures Copied(m, c, p + 16) && y == WordAt(c.was, s + r + 12)
  {
    hide Aligned;
    AlignedOn(d);
    AlignedOn(s + r);
    y := ShiftWord(m, d, s, r, x, c, p);
    y := ShiftWord(m, d + 4, s + 4, r, y, c, p + 4);
    y := ShiftWord(m, d + 8, s + 8, r, y, c, p + 8);
    y := ShiftWord(m, d + 12, s + 12, r, y, c, p + 12);
  }

  // Loads the word r bytes ahead and stores it spliced with x, the one before; the loaded word is the next x.
  method ShiftWord(m: array<bv8>, d: nat, s: nat, r: nat, x: bv32, ghost c: Call, ghost p: nat) returns (y: bv32)
    requires c.Sane() && 1 <= r <= 3 && 4 <= s + r && p + r + 4 <= c.n && Copied(m, c, p) && d == c.dest + p && s == c.src + p
    requires Aligned(d) && Aligned(s + r) && x == WordAt(c.was, s + r - 4)
    modifies m
    ensures Copied(m, c, p + 4) && y == WordAt(c.was, s + r)
  {
    hide Word, Splice;
    y := GetWord(m, s + r, c, p);
    SpliceAt(c.was, s, r);
    PutWord(m, d, Splice(r, x, y), c, p);
  }

  // The last bytes, by the bits of their number.
  method ByteTail(m: array<bv8>, d: nat, s: nat, n: nat, ghost c: Call, ghost p0: nat)
    requires c.Sane() && p0 + n == c.n && n < 32 && Copied(m, c, p0) && d == c.dest + p0 && s == c.src + p0
    modifies m
    ensures Copied(m, c, c.n)
  {
    hide Below, BitSet;
    NoneBelow(n);
    var p := 0;
    p := TailStep(m, d, s, n, 16, p, c, p0);
    p := TailStep(m, d, s, n, 8, p, c, p0);
    p := TailStep(m, d, s, n, 4, p, c, p0);
    p := TailStep(m, d, s, n, 2, p, c, p0);
    p := TailStep(m, d, s, n, 1, p, c, p0);
  }

  // if (n & b), b bytes more
  method TailStep(m: array<bv8>, d: nat, s: nat, n: nat, b: nat, p: nat, ghost c: Call, ghost p0: nat) returns (q: nat)
    requires (b == 1 || b == 2 || b == 4 || b == 8 || b == 16) && c.Sane() && p0 + p + Below(n, 2 * b) == c.n
    requires Copied(m, c, p0 + p) && d == c.dest + p0 && s == c.src + p0
    modifies m
    ensures p0 + q + Below(n, b) == c.n && Copied(m, c, p0 + q)
  {
    hide Below, BitSet;
    BitPart(n, b);
    q := p;
    if BitSet(n, b) {
      MoveBytes(m, d + p, s + p, b, c, p0 + p);
      q := p + b;
    }
  }

  lemma AllCopied(m: array<bv8>, c: Call)
    requires c.Sane() && Copied(m, c, c.n)
    ensures m[c.dest..c.dest + c.n] == c.was[c.src..c.src + c.n]
    ensures forall i | 0 <= i < m.Length && !(c.dest <= i < c.dest + c.n) :: m[i] == c.was[i]
  {
    var a, b := m[c.dest..c.dest + c.n], c.was[c.src..c.src + c.n];
    forall i | 0 <= i < c.n ensures a[i] == b[i] { assert Cell(m, c, c.n, c.dest + i); }
    forall i | 0 <= i < m.Length && !(c.dest <= i < c.dest + c.n) ensures m[i] == c.was[i] { assert Cell(m, c, c.n, i); }
  }

  // nd_memcpy: every length and every pair of alignments.
  method Copy(m: array<bv8>, dest: nat, src: nat, n: nat) returns (r: nat)
    requires dest + n <= m.Length && src + n <= m.Length && (dest + n <= src || src + n <= dest)
    modifies m
    ensures r == dest && m[dest..dest + n] == old(m[src..src + n])
    ensures forall i | 0 <= i < m.Length && !(dest <= i < dest + n) :: m[i] == old(m[i])
  {
    ghost var c := Call(m[..], dest, src, n);
    assert Copied(m, c, 0);
    var p := AlignSource(m, dest, src, n, c);
    if Aligned(dest + p) {
      CopyAligned(m, dest + p, src + p, n - p, c, p);
    } else {
      if n - p >= 32 {
        var q := CopyShifted(m, dest + p, src + p, n - p, c, p);
        p := p + q;
      }
      ByteTail(m, dest + p, src + p, n - p, c, p);
    }
    AllCopied(m, c);
    r := dest;
  }
}
