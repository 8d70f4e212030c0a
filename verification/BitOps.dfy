// include/nd_bitops.h: find first set, by trailing zeros and by byte table.
module BitOps {
  // A 32-bit word, bit 0 first.
  type Word = w: seq<bool> | |w| == 32 witness Falses(32)

  function Falses(n: nat): (w: seq<bool>)
    ensures |w| == n && forall i | 0 <= i < n :: !w[i]
  {
    if n == 0 then [] else Falses(n - 1) + [false]
  }

  const Zero: Word := Falses(32)

  // The lowest set bit of w from p on, or 32.
  function LowestFrom(w: Word, p: nat): (r: nat)
    requires p <= 32
    ensures p <= r <= 32 && (r < 32 ==> w[r]) && forall q | p <= q < r :: !w[q]
    decreases 32 - p
  {
    if p == 32 || w[p] then p else LowestFrom(w, p + 1)
  }

  // nd_ffs over the count of trailing zeros.
  function Ffs(w: Word): (r: nat)
    ensures r == 0 <==> forall p | 0 <= p < 32 :: !w[p]
    ensures r != 0 ==> r <= 32 && w[r - 1] && forall p | 0 <= p < r - 1 :: !w[p]
  {
    if LowestFrom(w, 0) == 32 then 0 else LowestFrom(w, 0) + 1
  }

  // ----- The fallback: one table lookup for the lowest non-zero byte

  // The sixteen rows of _nd_lowest_bit differ in their first entry only.
  const RowStart: seq<nat> := [0, 4, 5, 4, 6, 4, 5, 4, 7, 4, 5, 4, 6, 4, 5, 4]

  function Row(first: nat): (r: seq<nat>)
    ensures |r| == 16
  {
    [first, 0, 1, 0, 2, 0, 1, 0, 3, 0, 1, 0, 2, 0, 1, 0]
  }

  // _nd_lowest_bit[x]
  function LowestBit(x: nat): nat
    requires x < 256
  {
    Row(RowStart[x / 16])[x % 16]
  }

  // The four bits of w from i on, as a number.
  function Nibble(w: Word, i: nat): (x: nat)
    requires i + 4 <= 32
    ensures x < 16
  {
    (if w[i] then 1 else 0) + (if w[i + 1] then 2 else 0) + (if w[i + 2] then 4 else 0) + if w[i + 3] then 8 else 0
  }

  // (w & 0xff << i) >> i
  function Byte(w: Word, i: nat): (x: nat)
    requires i + 8 <= 32
    ensures x < 256
  {
    Nibble(w, i) + 16 * Nibble(w, i + 4)
  }

  function FfsByTable(w: Word): nat {
    if w == Zero then 0
    else if Byte(w, 0) != 0 then LowestBit(Byte(w, 0)) + 1
    else if Byte(w, 8) != 0 then LowestBit(Byte(w, 8)) + 9
    else if Byte(w, 16) != 0 then LowestBit(Byte(w, 16)) + 17
    else LowestBit(Byte(w, 24)) + 25
  }

  lemma ByteParts(w: Word, i: nat)
    requires i + 8 <= 32
    ensures Byte(w, i) / 16 == Nibble(w, i + 4) && Byte(w, i) % 16 == Nibble(w, i)
  {
  }

  lemma RowLow(w: Word, i: nat, first: nat)
    requires i + 4 <= 32
    ensures Nibble(w, i) == 0 <==> !w[i] && !w[i + 1] && !w[i + 2] && !w[i + 3]
    ensures var k := Row(first)[Nibble(w, i)];
      if Nibble(w, i) == 0 then k == first else k < 4 && w[i + k] && forall q | i <= q < i + k :: !w[q]
  {
  }

  lemma StartHigh(w: Word, i: nat)
    requires i + 4 <= 32 && Nibble(w, i) != 0
    ensures var k := RowStart[Nibble(w, i)];
      4 <= k < 8 && w[i + k - 4] && forall q | i <= q < i + k - 4 :: !w[q]
  {
  }

  // The table gives the lowest set bit of a non-zero byte.
  lemma ByteLowest(w: Word, i: nat)
    requires i + 8 <= 32
    ensures Byte(w, i) == 0 <==> forall q | i <= q < i + 8 :: !w[q]
    ensures Byte(w, i) != 0 ==> var k := LowestBit(Byte(w, i)); k < 8 && w[i + k] && forall q | i <= q < i + k :: !w[q]
  {
    ByteParts(w, i);
    RowLow(w, i, RowStart[Nibble(w, i + 4)]);
    RowLow(w, i + 4, 0);
    if Nibble(w, i) == 0 && Nibble(w, i + 4) != 0 {
      StartHigh(w, i + 4);
    }
  }

  lemma LowestUnique(w: Word, r: nat)
    requires r < 32 && w[r] && forall q | 0 <= q < r :: !w[q]
    ensures Ffs(w) == r + 1
  {
  }

  // Both forms of nd_ffs agree.
  lemma TableAgrees(w: Word)
    ensures FfsByTable(w) == Ffs(w)
  {
    ByteLowest(w, 0);
    ByteLowest(w, 8);
    ByteLowest(w, 16);
    ByteLowest(w, 24);
    if w != Zero {
      assert exists p :: 0 <= p < 32 && w[p] != Zero[p];
      LowestUnique(w, FfsByTable(w) - 1);
    }
  }
}
