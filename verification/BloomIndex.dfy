/**
  The two-level index of log blooms by block number. Level 0 has a bloom per block, level 1 one per sixteen
  blocks; both are kept in chunks of sixteen, memoised in front of a database.
 */
module BloomIndex {

  /** A bloom filter as the set of its bits: "contains" is the subset relation, "|=" is union. */
  type Bloom = set<nat>
  type Chunk = seq<Bloom>
  type Store = map<nat, Chunk>

  const INDEX_SIZE: nat := 16
  const WORD32: nat := 0x1_0000_0000

  const EMPTY_CHUNK: Chunk := [{}, {}, {}, {}, {}, {}, {}, {}, {}, {}, {}, {}, {}, {}, {}, {}]

  /** The memoised chunks and the ones in the database. */
  datatype Blooms = Blooms(memo: Store, db: Store)

  predicate Shaped(s: Store) {
    forall id :: id in s ==> |s[id]| == INDEX_SIZE
  }

  predicate WellShaped(s: Blooms) {
    Shaped(s.memo) && Shaped(s.db)
  }

  /** The key of a chunk, in 32-bit arithmetic. */
  function ChunkId(level: nat, index: nat): nat {
    (index * 0xff + level) % WORD32
  }

  /** A read: the memo first, then the database, then a chunk of empty blooms. */
  function Lookup(s: Blooms, id: nat): (c: Chunk)
    requires WellShaped(s)
    ensures |c| == INDEX_SIZE
  {
    if id in s.memo then s.memo[id] else if id in s.db then s.db[id] else EMPTY_CHUNK
  }

  function Slot(s: Blooms, level: nat, item: nat): Bloom
    requires WellShaped(s)
  {
    Lookup(s, ChunkId(level, item / INDEX_SIZE))[item % INDEX_SIZE]
  }

  /** Items that exist: 32-bit block numbers at level 0, their sixteenths at level 1. */
  predicate IsItem(level: nat, item: nat) {
    (level == 0 && item < WORD32) || (level == 1 && item < WORD32 / INDEX_SIZE)
  }

  /** Although chunk keys are computed modulo 2^32, no two chunks of existing items share a key. */
  lemma ChunkIdInjective(l: nat, i: nat, m: nat, j: nat)
    requires IsItem(l, i) && IsItem(m, j)
    requires ChunkId(l, i / INDEX_SIZE) == ChunkId(m, j / INDEX_SIZE)
    ensures l == m && i / INDEX_SIZE == j / INDEX_SIZE
  {
    var x, y := (i / INDEX_SIZE) * 0xff + l, (j / INDEX_SIZE) * 0xff + m;
    var p, q := x / WORD32, y / WORD32;
    assert x - y == (p - q) * WORD32;
    assert WORD32 == 0x1010101 * 0xff + 1;
    assert 0xff * (i / INDEX_SIZE - j / INDEX_SIZE - (p - q) * 0x1010101) == (p - q) + m - l;
  }

  // ---------- updates ----------

  /** Overwrites a slot in the memo only. */
  function SetMemo(s: Blooms, level: nat, item: nat, b: Bloom): (r: Blooms)
    requires WellShaped(s)
    ensures WellShaped(r) && r.db == s.db
  {
    var id := ChunkId(level, item / INDEX_SIZE);
    s.(memo := s.memo[id := Lookup(s, id)[item % INDEX_SIZE := b]])
  }

  lemma SlotAfterSet(s: Blooms, level: nat, item: nat, b: Bloom, l: nat, i: nat)
    requires WellShaped(s) && IsItem(level, item) && IsItem(l, i)
    ensures Slot(SetMemo(s, level, item, b), l, i) == if l == level && i == item then b else Slot(s, l, i)
  {
    if ChunkId(l, i / INDEX_SIZE) == ChunkId(level, item / INDEX_SIZE) {
      ChunkIdInjective(l, i, level, item);
      assert i % INDEX_SIZE == item % INDEX_SIZE ==> i == item;
    }
  }

  /** Adds a bloom to a slot and writes the slot's chunk to the database. */
  function AddAt(s: Blooms, level: nat, item: nat, b: Bloom): (r: Blooms)
    requires WellShaped(s)
    ensures WellShaped(r)
  {
    var id := ChunkId(level, item / INDEX_SIZE);
    var r := SetMemo(s, level, item, Slot(s, level, item) + b);
    r.(db := r.db[id := r.memo[id]])
  }

  /** A block's bloom goes into its slot at both levels. */
  function AddBlock(s: Blooms, n: nat, b: Bloom): (r: Blooms)
    requires WellShaped(s)
    ensures WellShaped(r)
  {
    AddAt(AddAt(s, 0, n, b), 1, n / INDEX_SIZE, b)
  }

  function UnionFrom(c: Chunk, k: nat): Bloom
    requires k <= |c|
    decreases |c| - k
  {
    if k == |c| then {} else c[k] + UnionFrom(c, k + 1)
  }

  lemma {:induction false} UnionHas(c: Chunk, k: nat, i: nat)
    requires k <= i < |c|
    ensures c[i] <= UnionFrom(c, k)
    decreases |c| - k
  {
    if k < i { UnionHas(c, k + 1, i); }
  }

  /** Level 0 of clearBlockBlooms: the slots of the given blocks are emptied. */
  function ClearLow(s: Blooms, begin: nat, end: nat): (r: Blooms)
    requires WellShaped(s) && begin <= end
    ensures WellShaped(r) && r.db == s.db
    decreases end - begin
  {
    if begin == end then s else ClearLow(SetMemo(s, 0, begin, {}), begin + 1, end)
  }

  /** Level 1: the slots above them are rebuilt from level 0. */
  function ClearHigh(s: Blooms, begin: nat, end: nat): (r: Blooms)
    requires WellShaped(s) && begin <= end
    ensures WellShaped(r) && r.db == s.db
    decreases end - begin
  {
    if begin == end then s
    else ClearHigh(SetMemo(s, 1, begin, UnionFrom(Lookup(s, ChunkId(0, begin)), 0)), begin + 1, end)
  }

  function ClearBlocks(s: Blooms, begin: nat, end: nat): (r: Blooms)
    requires WellShaped(s) && begin < end
    ensures WellShaped(r) && r.db == s.db
  {
    ClearHigh(ClearLow(s, begin, end), begin / INDEX_SIZE, (end - 1) / INDEX_SIZE + 1)
  }

  // ---------- coverage ----------

  /** A reader looking for part of `b` is led to block n by both levels. */
  predicate Covers(s: Blooms, n: nat, b: Bloom)
    requires WellShaped(s)
  {
    b <= Slot(s, 0, n) && b <= Slot(s, 1, n / INDEX_SIZE)
  }

  /** Coverage that survives the memo being dropped. */
  predicate Stored(s: Blooms, n: nat, b: Bloom)
    requires WellShaped(s)
  {
    Covers(s, n, b) && Covers(s.(memo := map[]), n, b)
  }

  lemma AddAtSlot(s: Blooms, level: nat, item: nat, b: Bloom, l: nat, i: nat)
    requires WellShaped(s) && IsItem(level, item) && IsItem(l, i)
    ensures var r := AddAt(s, level, item, b);
      && Slot(r, l, i) == (if l == level && i == item then Slot(s, l, i) + b else Slot(s, l, i))
      && Slot(r.(memo := map[]), l, i)
         == (if ChunkId(l, i / INDEX_SIZE) == ChunkId(level, item / INDEX_SIZE) then Slot(r, l, i)
             else Slot(s.(memo := map[]), l, i))
  {
    SlotAfterSet(s, level, item, Slot(s, level, item) + b, l, i);
  }

  /** Adding a block covers it, in the memo and in the database, and uncovers nothing. */
  lemma AddBlockCovers(s: Blooms, n: nat, b: Bloom, m: nat, c: Bloom)
    requires WellShaped(s) && n < WORD32 && m < WORD32
    ensures Stored(AddBlock(s, n, b), n, b)
    ensures Stored(s, m, c) ==> Stored(AddBlock(s, n, b), m, c)
  {
    hide AddAt, Slot;
    var s1 := AddAt(s, 0, n, b);
    forall l, i | IsItem(l, i)
      ensures Slot(s, l, i) <= Slot(AddBlock(s, n, b), l, i)
    {
      AddAtSlot(s, 0, n, b, l, i);
      AddAtSlot(s1, 1, n / INDEX_SIZE, b, l, i);
    }
    AddAtSlot(s, 0, n, b, 0, n);
    AddAtSlot(s, 0, n, b, 1, n / INDEX_SIZE);
    AddAtSlot(s1, 1, n / INDEX_SIZE, b, 0, n);
    AddAtSlot(s1, 1, n / INDEX_SIZE, b, 1, n / INDEX_SIZE);
    AddAtSlot(s, 0, n, b, 0, m);
    AddAtSlot(s, 0, n, b, 1, m / INDEX_SIZE);
    AddAtSlot(s1, 1, n / INDEX_SIZE, b, 0, m);
    AddAtSlot(s1, 1, n / INDEX_SIZE, b, 1, m / INDEX_SIZE);
  }

  lemma {:induction false} ClearLowSlots(s: Blooms, begin: nat, end: nat, l: nat, i: nat)
    requires WellShaped(s) && begin <= end <= WORD32 && IsItem(l, i)
    ensures Slot(ClearLow(s, begin, end), l, i) == if l == 0 && begin <= i < end then {} else Slot(s, l, i)
    decreases end - begin
  {
    hide SetMemo, Slot;
    if begin < end {
      SlotAfterSet(s, 0, begin, {}, l, i);
      ClearLowSlots(SetMemo(s, 0, begin, {}), begin + 1, end, l, i);
    }
  }

  lemma {:induction false} ClearHighSlots(s: Blooms, begin: nat, end: nat, n: nat, b: Bloom)
    requires WellShaped(s) && begin <= end <= WORD32 / INDEX_SIZE && n < WORD32
    requires b <= Slot(s, 0, n) && (n / INDEX_SIZE < begin || end <= n / INDEX_SIZE ==> b <= Slot(s, 1, n / INDEX_SIZE))
    ensures Covers(ClearHigh(s, begin, end), n, b)
    decreases end - begin
  {
    hide SetMemo, Slot;
    if begin < end {
      var acc := UnionFrom(Lookup(s, ChunkId(0, begin)), 0);
      var s1 := SetMemo(s, 1, begin, acc);
      SlotAfterSet(s, 1, begin, acc, 0, n);
      SlotAfterSet(s, 1, begin, acc, 1, n / INDEX_SIZE);
      if n / INDEX_SIZE == begin {
        RebuiltHas(s, n);
        assert b <= Slot(s1, 1, n / INDEX_SIZE);
      }
      ClearHighSlots(s1, begin + 1, end, n, b);
    }
  }

  lemma RebuiltHas(s: Blooms, n: nat)
    requires WellShaped(s)
    ensures Slot(s, 0, n) <= UnionFrom(Lookup(s, ChunkId(0, n / INDEX_SIZE)), 0)
  {
    UnionHas(Lookup(s, ChunkId(0, n / INDEX_SIZE)), 0, n % INDEX_SIZE);
  }

  /** Clearing the blooms of reverted blocks uncovers no block before them. */
  lemma ClearBlocksCovers(s: Blooms, begin: nat, end: nat, n: nat, b: Bloom)
    requires WellShaped(s) && begin < end <= WORD32 && n < begin && Stored(s, n, b)
    ensures Stored(ClearBlocks(s, begin, end), n, b)
  {
    hide Slot, ClearLow, ClearHigh;
    var s1 := ClearLow(s, begin, end);
    ClearLowSlots(s, begin, end, 0, n);
    ClearLowSlots(s, begin, end, 1, n / INDEX_SIZE);
    ClearHighSlots(s1, begin / INDEX_SIZE, (end - 1) / INDEX_SIZE + 1, n, b);
    assert ClearBlocks(s, begin, end).(memo := map[]) == s.(memo := map[]);
  }

  // ---------- queries ----------

  /** The number of blocks under one level-1 chunk. */
  const SPAN: nat := 256

  function CeilDiv(n: nat, d: nat): nat
    requires d > 0
  {
    ((n + d - 1) % WORD32) / d
  }

  /** Both of block n's slots contain the query. */
  predicate Hit(s: Blooms, q: Bloom, n: nat)
    requires WellShaped(s)
  {
    q <= Slot(s, 0, n) && q <= Slot(s, 1, n / INDEX_SIZE)
  }

  predicate Increasing(r: seq<nat>) {
    forall i, j :: 0 <= i < j < |r| ==> r[i] < r[j]
  }

  /** Block numbers of a level-0 chunk that the bounds leave in. */
  predicate InLowWindow(n: nat, earliest: nat, latest: nat, index: nat) {
    && n / INDEX_SIZE == index
    && (index == earliest / INDEX_SIZE ==> n >= earliest)
    && (index == latest / INDEX_SIZE ==> n <= latest)
  }

  predicate InHighWindow(n: nat, earliest: nat, latest: nat, index: nat) {
    && n / SPAN == index
    && (index == earliest / SPAN ==> n / INDEX_SIZE >= earliest / INDEX_SIZE)
    && (index == latest / SPAN ==> n / INDEX_SIZE <= latest / INDEX_SIZE)
    && InLowWindow(n, earliest, latest, n / INDEX_SIZE)
  }

  lemma AppendIncreasing(a: seq<nat>, b: seq<nat>)
    requires Increasing(a) && Increasing(b)
    requires forall x, y :: x in a && y in b ==> x < y
    ensures Increasing(a + b)
  {
    forall i, j | 0 <= i < j < |a + b| ensures (a + b)[i] < (a + b)[j] {
      if i < |a| && j >= |a| { assert a[i] in a && b[j - |a|] in b; }
    }
  }

  /** The recursion's lower level: the matching blocks of one level-0 chunk. */
  method ScanLow(s: Blooms, q: Bloom, earliest: nat, latest: nat, index: nat) returns (ret: seq<nat>)
    requires WellShaped(s)
    ensures Increasing(ret)
    ensures forall n :: n in ret <==> InLowWindow(n, earliest, latest, index) && q <= Slot(s, 0, n)
  {
    ret := [];
    var obegin := if index == earliest / INDEX_SIZE then earliest % INDEX_SIZE else 0;
    var oend := if index == latest / INDEX_SIZE then latest % INDEX_SIZE + 1 else INDEX_SIZE;
    var chunk := Lookup(s, ChunkId(0, index));
    var o := obegin;
    while o < oend
      invariant obegin <= o && (o <= oend || o == obegin) && Increasing(ret)
      invariant forall n :: n in ret <==> n / INDEX_SIZE == index && obegin <= n % INDEX_SIZE < o && n % INDEX_SIZE < oend && q <= Slot(s, 0, n)
    {
      var n := o + index * INDEX_SIZE;
      assert n / INDEX_SIZE == index && n % INDEX_SIZE == o;
      assert Slot(s, 0, n) == chunk[o];
      if q <= chunk[o] {
        AppendIncreasing(ret, [n]);
        ret := ret + [n];
      }
      o := o + 1;
    }
  }

  /** The recursion's upper level: a level-1 slot that matches is searched one level down. */
  method ScanHigh(s: Blooms, q: Bloom, earliest: nat, latest: nat, index: nat) returns (ret: seq<nat>)
    requires WellShaped(s)
    ensures Increasing(ret)
    ensures forall n :: n in ret <==> InHighWindow(n, earliest, latest, index) && Hit(s, q, n)
  {
    hide Slot;
    ret := [];
    var obegin := if index == earliest / SPAN then earliest / INDEX_SIZE % INDEX_SIZE else 0;
    var oend := if index == latest / SPAN then latest / INDEX_SIZE % INDEX_SIZE + 1 else INDEX_SIZE;
    var chunk := Lookup(s, ChunkId(1, index));
    var o := obegin;
    while o < oend
      invariant obegin <= o && (o <= oend || o == obegin) && Increasing(ret)
      invariant forall n :: n in ret <==>
        && obegin + index * INDEX_SIZE <= n / INDEX_SIZE < o + index * INDEX_SIZE
        && InLowWindow(n, earliest, latest, n / INDEX_SIZE) && Hit(s, q, n)
    {
      var item := o + index * INDEX_SIZE;
      SlotOfItem(s, index, o);
      if q <= chunk[o] {
        var low := ScanLow(s, q, earliest, latest, item);
        AppendIncreasing(ret, low);
        ret := ret + low;
      }
      o := o + 1;
    }
    forall n: nat
      ensures InHighWindow(n, earliest, latest, index)
              <==> obegin + index * INDEX_SIZE <= n / INDEX_SIZE < o + index * INDEX_SIZE
                   && InLowWindow(n, earliest, latest, n / INDEX_SIZE)
    {
      HighWindowItems(n, earliest, latest, index, obegin, oend);
    }
  }

  lemma SlotOfItem(s: Blooms, index: nat, o: nat)
    requires WellShaped(s) && o < INDEX_SIZE
    ensures Slot(s, 1, o + index * INDEX_SIZE) == Lookup(s, ChunkId(1, index))[o]
  {
    assert (o + index * INDEX_SIZE) / INDEX_SIZE == index && (o + index * INDEX_SIZE) % INDEX_SIZE == o;
  }

  lemma HighWindowItems(n: nat, earliest: nat, latest: nat, index: nat, obegin: nat, oend: nat)
    requires obegin == if index == earliest / SPAN then earliest / INDEX_SIZE % INDEX_SIZE else 0
    requires oend == if index == latest / SPAN then latest / INDEX_SIZE % INDEX_SIZE + 1 else INDEX_SIZE
    ensures InHighWindow(n, earliest, latest, index)
            <==> obegin + index * INDEX_SIZE <= n / INDEX_SIZE < oend + index * INDEX_SIZE
                 && InLowWindow(n, earliest, latest, n / INDEX_SIZE)
  {
    hide InLowWindow;
    assert n / INDEX_SIZE / INDEX_SIZE == n / SPAN && earliest / INDEX_SIZE / INDEX_SIZE == earliest / SPAN
        && latest / INDEX_SIZE / INDEX_SIZE == latest / SPAN;
  }

  method WithBlockBloom(s: Blooms, q: Bloom, earliest: nat, latest: nat) returns (ret: seq<nat>)
    requires WellShaped(s) && earliest < WORD32 && latest < WORD32
    ensures Increasing(ret)
    ensures forall n :: n in ret <==> Scanned(n, earliest, latest) && Hit(s, q, n)
  {
    ret := [];
    var index := earliest / SPAN;
    while index <= CeilDiv(latest, SPAN)
      invariant earliest / SPAN <= index && (index <= CeilDiv(latest, SPAN) + 1 || index == earliest / SPAN) && Increasing(ret)
      invariant forall n :: n in ret <==>
        && earliest / SPAN <= n / SPAN < index && n / SPAN <= CeilDiv(latest, SPAN)
        && InHighWindow(n, earliest, latest, n / SPAN) && Hit(s, q, n)
    {
      var high := ScanHigh(s, q, earliest, latest, index);
      AppendIncreasing(ret, high);
      ret := ret + high;
      index := index + 1;
    }
  }

  /** The block numbers that a query looks at. */
  predicate Scanned(n: nat, earliest: nat, latest: nat) {
    && earliest / SPAN <= n / SPAN <= CeilDiv(latest, SPAN)
    && InHighWindow(n, earliest, latest, n / SPAN)
  }

  /**
    A query looks at every block from earliest to latest, at none before earliest, and, unless latest is a
    multiple of 256, also at the 256 blocks under the next level-1 chunk.
   */
  lemma ScannedExactly(n: nat, earliest: nat, latest: nat)
    requires earliest <= latest && latest + SPAN <= WORD32
    ensures Scanned(n, earliest, latest)
            <==> earliest <= n && (n <= latest || (latest % SPAN != 0 && n / SPAN == latest / SPAN + 1))
  {
    assert CeilDiv(latest, SPAN) == latest / SPAN + if latest % SPAN != 0 then 1 else 0;
    assert n / INDEX_SIZE / INDEX_SIZE == n / SPAN && earliest / INDEX_SIZE / INDEX_SIZE == earliest / SPAN
        && latest / INDEX_SIZE / INDEX_SIZE == latest / SPAN;
  }

  /** Whatever the bounds, nothing before earliest is looked at. */
  lemma ScannedAfter(n: nat, earliest: nat, latest: nat)
    requires Scanned(n, earliest, latest)
    ensures n >= earliest
  {
    assert n / INDEX_SIZE / INDEX_SIZE == n / SPAN && earliest / INDEX_SIZE / INDEX_SIZE == earliest / SPAN;
  }

  /** For the last 255 block numbers of 32 bits the bound wraps around, and nothing past block 255 is looked at. */
  lemma ScanWraps(n: nat, earliest: nat, latest: nat)
    requires latest < WORD32 && latest + SPAN > WORD32 && n >= SPAN
    ensures !Scanned(n, earliest, latest)
  {
    assert (latest + SPAN - 1) % WORD32 == latest + SPAN - 1 - WORD32;
  }
}
