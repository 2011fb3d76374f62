/** The block chain object, whose import works on the stores in place. */
module BlockChainObject {
  import opened BlockTree
  import opened BloomIndex
  import opened ChainImport
  import opened ChainRuns
  import opened ChildLists
  import opened CacheRuns

  /** What a route from the old head to the new block consists of. */
  predicate Splits(route: seq<Hash>, dead: seq<Hash>, common: Hash, live: seq<Hash>) {
    route == dead + [common] + live && common !in dead && common !in live
  }

  lemma PublishNone(x: Indexes, headers: map<Hash, Header>)
    requires WellShaped(x.blooms)
    ensures Publish(x, [], headers) == x
  {
  }

  lemma PublishPush(x: Indexes, blocks: seq<Hash>, h: Hash, headers: map<Hash, Header>)
    requires WellShaped(x.blooms) && h in headers && forall b :: b in blocks ==> b in headers
    ensures (forall b :: b in blocks + [h] ==> b in headers)
    ensures Publish(x, blocks + [h], headers) == Publish(Enter(x, h, headers), blocks, headers)
  {
    assert (blocks + [h])[..|blocks|] == blocks;
  }

  /** The common block is on the route once. */
  lemma CommonPlace(route: seq<Hash>, dead: seq<Hash>, common: Hash, live: seq<Hash>)
    requires Splits(route, dead, common, live)
    ensures |route| == |dead| + 1 + |live| && route[|dead| + 1..] == live
    ensures forall i :: 0 <= i < |route| ==> (route[i] == common <==> i == |dead|)
  {
    forall i | 0 <= i < |route| ensures route[i] == common <==> i == |dead| {
      if i < |dead| { assert route[i] == dead[i]; }
      if i > |dead| { assert route[i] == live[i - |dead| - 1]; }
    }
  }

  /** The route that import works with: treeRoute's, to the parent, with the new block tacked on. */
  lemma RouteToCandidate(s: ChainState, p: Params, c: Candidate)
    requires Sane(s, p) && Genuine(s, c) && Judge(s, p, c).Accept? && c.hash !in s.tree
    ensures var g := Grown(s, c);
      var r := RouteSpec(s.tree, p.genesis, s.head, c.header.parent, true, true, true);
      && Sane(g, p) && r.common in s.tree
      && Splits(r.blocks + [c.hash], Adopt(g, p, c.hash).dead, r.common, Adopt(g, p, c.hash).live)
      && s.tree[r.common].number + 1 == Shared(g, p, c.hash) <= s.headNumber + 1
      && (r.common == s.head <==> Shared(g, p, c.hash) == s.headNumber + 1)
  {
    hide Chain, SharedLength, Reverse, WellNumbered, WellShaped, Agree, Reindexed;
    var g := Grown(s, c);
    GrownChains(s, p, c);
    var was, par, now := Canonical(s, p), Chain(s.tree, p.genesis, c.header.parent), Chain(g.tree, p.genesis, c.hash);
    var k := SharedLength(was, par);
    var common := Meeting(s.tree, p.genesis, s.head, c.header.parent);
    SharedPositive(s.tree, p.genesis, s.head, c.header.parent);
    MeetingIsLowest(s.tree, p.genesis, s.head, c.header.parent);
    SharedOneMore(was, par, c.hash);
    assert now[k..] == par[k..] + [c.hash];
    CommonApart(s, p, c.header.parent);
    ReverseMembers(was[k..]);
    var dead := Reverse(was[k..]);
    assert dead + [common] + par[k..] + [c.hash] == dead + [common] + now[k..];
  }

  lemma GenesisKnown(s: ChainState, p: Params)
    requires Sane(s, p)
    ensures p.genesis in s.tree && NO_HASH !in s.tree
  {
  }

  lemma SharedOneMore(a: seq<Hash>, b: seq<Hash>, x: Hash)
    requires x !in a
    ensures SharedLength(a, b + [x]) == SharedLength(a, b)
  {
    hide SharedLength;
    var k := SharedLength(a, b);
    assert (b + [x])[..k] == b[..k];
    SharedIs(a, b + [x], k);
  }

  /** The meeting point is on neither branch above it, and is the head only if nothing is. */
  lemma CommonApart(s: ChainState, p: Params, h: Hash)
    requires Sane(s, p) && h in s.tree
    ensures var was, now := Canonical(s, p), Chain(s.tree, p.genesis, h);
      var k, common := SharedLength(was, now), Meeting(s.tree, p.genesis, s.head, h);
      && common !in was[k..] && common !in now[k..] && (common == s.head <==> k == |was|)
  {
    hide Chain, SharedLength, WellNumbered, WellShaped, Agree, Meeting;
    MeetingIsLowest(s.tree, p.genesis, s.head, h);
    NotAbove(s.tree, p.genesis, s.head, Meeting(s.tree, p.genesis, s.head, h));
    NotAbove(s.tree, p.genesis, h, Meeting(s.tree, p.genesis, s.head, h));
    NumberInChain(s.tree, p.genesis, Meeting(s.tree, p.genesis, s.head, h), s.head);
  }

  /** Clearing memoises every level-0 chunk it goes through, so the rebuild of level 1 finds them there. */
  lemma {:induction false} ClearLowMemo(s: Blooms, begin: nat, end: nat, id: nat)
    requires WellShaped(s) && begin <= end
    ensures id in s.memo ==> id in ClearLow(s, begin, end).memo
    ensures (exists n :: begin <= n < end && id == ChunkId(0, n / INDEX_SIZE)) ==> id in ClearLow(s, begin, end).memo
    decreases end - begin
  {
    if begin < end { ClearLowMemo(SetMemo(s, 0, begin, {}), begin + 1, end, id); }
  }

  class BlockChain {
    const params: Params
    var details: Tree
    var blocks: map<Hash, Header>
    var lastBlockHash: Hash
    var lastBlockNumber: nat
    var blockHashes: map<nat, Hash>
    var bloomMemo: Store
    var bloomDb: Store
    var childMemo: map<Hash, seq<Hash>>
    var childDb: map<Hash, seq<Hash>>
    var numberMemo: map<nat, Hash>

    ghost function View(): ChainState
      reads this
    {
      ChainState(details, blocks, lastBlockHash, lastBlockNumber, Indexes(blockHashes, BloomView()))
    }

    ghost function BloomView(): Blooms
      reads this
    {
      Blooms(bloomMemo, bloomDb)
    }

    ghost function ListView(): Lists
      reads this
    {
      Lists(childMemo, childDb)
    }

    /** The chain, the lists of children and the memo of the number index. */
    ghost function CachedView(): Cached
      reads this
    {
      Cached(View(), ListView(), numberMemo)
    }

    ghost predicate Valid()
      reads this
    {
      Inv(View(), params) && ListsSound(CachedView(), params)
    }

    constructor (p: Params, genesis: Header)
      requires p.genesis != NO_HASH && genesis.number == 0
      ensures params == p && CachedView() == CacheRuns.Start(p, genesis) && Valid()
    {
      params := p;
      details := map[p.genesis := Details(0, genesis.difficulty, NO_HASH)];
      blocks := map[p.genesis := genesis];
      lastBlockHash, lastBlockNumber := p.genesis, 0;
      blockHashes, bloomMemo, bloomDb := map[], map[], map[];
      childMemo, childDb, numberMemo := map[p.genesis := []], map[p.genesis := []], map[];
      new;
      StartInv(p, genesis);
      StartExact(details, p.genesis);
    }

    /** Reads the details of a block through the memo; of these only the children are kept there. */
    method NoteDetails(h: Hash)
      modifies this`childMemo
      ensures ListView() == Noted(old(ListView()), h)
    {
      if h !in childMemo && h in childDb { childMemo := childMemo[h := childDb[h]]; }
    }

    /** Reads a chunk through the memo. */
    method BlocksBlooms(id: nat) returns (chunk: Chunk)
      requires WellShaped(BloomView())
      modifies this`bloomMemo
      ensures chunk == Lookup(old(BloomView()), id) && BloomView() == Touched(old(BloomView()), id)
    {
      if id in bloomMemo { return bloomMemo[id]; }
      if id !in bloomDb { return EMPTY_CHUNK; }
      bloomMemo := bloomMemo[id := bloomDb[id]];
      chunk := bloomDb[id];
    }

    method ClearItem(level: nat, item: nat, acc: Bloom)
      requires WellShaped(BloomView())
      modifies this`bloomMemo
      ensures BloomView() == SetMemo(old(BloomView()), level, item, acc)
    {
      var id := ChunkId(level, item / INDEX_SIZE);
      var chunk := BlocksBlooms(id);
      bloomMemo := bloomMemo[id := chunk[item % INDEX_SIZE := acc]];
    }

    method Rebuild(id: nat) returns (acc: Bloom)
      requires WellShaped(BloomView()) && id in bloomMemo
      modifies this`bloomMemo
      ensures acc == UnionFrom(Lookup(old(BloomView()), id), 0) && bloomMemo == old(bloomMemo)
    {
      var chunk := BlocksBlooms(id);
      acc := {};
      for k := 0 to |chunk|
        invariant acc + UnionFrom(chunk, k) == UnionFrom(chunk, 0) && bloomMemo == old(bloomMemo)
      {
        acc := acc + chunk[k];
      }
    }

    method ClearBlockBlooms(begin: nat, end: nat)
      requires WellShaped(BloomView()) && begin < end
      modifies this`bloomMemo
      ensures BloomView() == ClearBlocks(old(BloomView()), begin, end)
    {
      ghost var start := BloomView();
      hide SetMemo, Lookup, UnionFrom;
      var item := begin;
      while item < end
        invariant begin <= item <= end && WellShaped(BloomView())
        invariant ClearLow(BloomView(), item, end) == ClearLow(start, begin, end)
      {
        ClearItem(0, item, {});
        item := item + 1;
      }
      var beginDirty, endDirty := begin / INDEX_SIZE, (end - 1) / INDEX_SIZE + 1;
      ghost var low := BloomView();
      LowChunksMemoised(start, begin, end);
      item := beginDirty;
      while item < endDirty
        invariant beginDirty <= item <= endDirty && WellShaped(BloomView())
        invariant forall i :: beginDirty <= i < endDirty ==> ChunkId(0, i) in bloomMemo
        invariant ClearHigh(BloomView(), item, endDirty) == ClearHigh(low, beginDirty, endDirty)
      {
        var acc := Rebuild(ChunkId(0, item));
        SetMemoKeeps(BloomView(), 1, item, acc);
        ClearItem(1, item, acc);
        item := item + 1;
      }
    }

    /** Adds a block's bloom at both levels and writes the altered chunks. */
    method AddBlockBloom(n: nat, b: Bloom)
      requires WellShaped(BloomView())
      modifies this`bloomMemo, this`bloomDb
      ensures BloomView() == AddBlock(old(BloomView()), n, b)
    {
      ghost var start := BloomView();
      var index := n;
      for level := 0 to 2
        invariant WellShaped(BloomView())
        invariant index == if level == 0 then n else if level == 1 then n / INDEX_SIZE else n / INDEX_SIZE / INDEX_SIZE
        invariant BloomView() == if level == 0 then start else if level == 1 then AddAt(start, 0, n, b) else AddBlock(start, n, b)
      {
        var id := ChunkId(level, index / INDEX_SIZE);
        var o := index % INDEX_SIZE;
        var chunk := BlocksBlooms(id);
        bloomMemo := bloomMemo[id := chunk[o := chunk[o] + b]];
        bloomDb := bloomDb[id := bloomMemo[id]];
        index := index / INDEX_SIZE;
      }
    }

    predicate IsKnown(h: Hash, current: bool)
      reads this
    {
      h == params.genesis || (h in details && (current ==> details[h].number <= lastBlockNumber))
    }

    ghost function IndexView(): Indexes
      reads this
    {
      Indexes(blockHashes, BloomView())
    }

    /** Goes through the route backwards as far as the common block, entering each block into the indexes. */
    method PublishRoute(route: seq<Hash>, common: Hash, c: Candidate, ghost dead: seq<Hash>, ghost live: seq<Hash>)
      requires WellShaped(BloomView()) && Splits(route, dead, common, live)
      requires forall h :: h in live ==> h in blocks[c.hash := c.header]
      modifies this`blockHashes, this`bloomMemo, this`bloomDb
      ensures IndexView() == Publish(old(IndexView()), live, blocks[c.hash := c.header])
    {
      hide AddBlock, WellShaped, Publish;
      CommonPlace(route, dead, common, live);
      hide Splits;
      ghost var start, headers := IndexView(), blocks[c.hash := c.header];
      var i := |route|;
      assert route[|dead| + 1..i] == live;
      while i > 0 && route[i - 1] != common
        invariant |dead| < i <= |route| && WellShaped(BloomView())
        invariant forall h :: h in route[|dead| + 1..i] ==> h in headers
        invariant Publish(IndexView(), route[|dead| + 1..i], headers) == Publish(start, live, headers)
      {
        var h := route[i - 1];
        ghost var stretch := route[|dead| + 1..i];
        assert stretch == route[|dead| + 1..i - 1] + [h];
        PublishPush(IndexView(), route[|dead| + 1..i - 1], h, headers);
        var header := if h == c.hash then c.header else blocks[h];
        AddBlockBloom(header.number, header.bloom);
        blockHashes := blockHashes[header.number := h];
        i := i - 1;
      }
      assert route[|dead| + 1..i] == [];
      PublishNone(IndexView(), headers);
    }

    /** Splits the route at the common block into the blocks that leave the chain and those that join it. */
    method SplitRoute(route: seq<Hash>, common: Hash, ghost was: seq<Hash>, ghost now: seq<Hash>) returns (dead: seq<Hash>, live: seq<Hash>)
      requires route == [] == was == now || Splits(route, was, common, now)
      ensures dead == was && live == now
    {
      dead, live := [], [];
      var isOld := true;
      for i := 0 to |route|
        invariant isOld <==> i <= |was|
        invariant isOld ==> dead == route[..i] && live == []
        invariant !isOld ==> dead == was && live == route[|was| + 1..i]
      {
        var h := route[i];
        if i < |was| { assert h == was[i]; }
        if i > |was| { assert h == now[i - |was| - 1]; }
        if h == common { isOld := false; } else if isOld { dead := dead + [h]; } else { live := live + [h]; }
      }
      if route != [] { assert route[|was| + 1..] == now; }
    }

    /** Goes through the route as far as the common block, erasing the number of each block from the memo. */
    method EraseNumbers(route: seq<Hash>, common: Hash, from: nat, ghost dead: seq<Hash>, ghost live: seq<Hash>)
      requires Splits(route, dead, common, live) && |dead| <= from
      modifies this`numberMemo
      ensures numberMemo == Without(old(numberMemo), from - |dead| + 1, from)
    {
      CommonPlace(route, dead, common, live);
      hide Splits;
      var i, n := 0, from;
      while i < |route| && route[i] != common
        invariant i <= |dead| && n == from - i
        invariant numberMemo == Without(old(numberMemo), n + 1, from)
        decreases |route| - i
      {
        numberMemo := numberMemo - {n};
        i, n := i + 1, n - 1;
      }
    }

    /** Moves the indexes from the head's chain over to the chain of a better block. */
    method Reorganise(c: Candidate) returns (route: seq<Hash>, common: Hash, ghost dead: seq<Hash>, ghost live: seq<Hash>)
      requires Inv(View(), params) && Genuine(View(), c) && Judge(View(), params, c).Accept? && Better(View(), params, c)
      modifies this`blockHashes, this`bloomMemo, this`bloomDb, this`numberMemo
      ensures Sane(Grown(old(View()), c), params) && numberMemo == NumbersAfter(old(numberMemo), old(View()), params, c)
      ensures var r := Adopt(Grown(old(View()), c), params, c.hash);
        IndexView() == r.state.indexes && dead == r.dead && live == r.live && Splits(route, dead, common, live)
    {
      hide Better, NumbersIndexed, BloomsIndexed, HeadIsBest, DifficultiesAddUp, WellNumbered, Agree, WellShaped, RouteSpec,
        Reverse, Chain, Publish, ClearBlocks, SharedLength, NewDetails, Splits;
      GenesisKnown(View(), params);
      ghost var start := View();
      var last := lastBlockHash;
      if c.hash in start.tree { ReimportSame(start, params, c); }
      RouteToCandidate(start, params, c);
      dead, live := Adopt(Grown(start, c), params, c.hash).dead, Adopt(Grown(start, c), params, c.hash).live;
      var r := TreeRoute(details, params.genesis, last, c.header.parent, true, true, true);
      route, common := r.blocks + [c.hash], r.common;
      ErasedNumbers(numberMemo, start, params, c, dead);
      if common != last {
        EraseNumbers(route, common, details[last].number, dead, live);
        ClearBlockBlooms(details[common].number + 1, details[last].number + 1);
      }
      PublishRoute(route, common, c, dead, live);
    }

    /** The checks that come before a block is stored, which read its details and its parent's. */
    method Judged(c: Candidate) returns (verdict: Verdict)
      requires Valid() && Genuine(View(), c)
      modifies this`childMemo
      ensures View() == old(View()) && verdict == Judge(View(), params, c)
      ensures ListView() == if verdict.Accept? then Noted(Noted(old(ListView()), c.hash), c.header.parent)
                            else ListsAfter(old(ListView()), View(), params, c)
    {
      hide Inv, Noted, Recorded, Sound;
      ghost var start := View();
      if c.hash != params.genesis { NoteDetails(c.hash); }
      assert View() == start;
      if IsKnown(c.hash, true) { return AlreadyHaveBlock; }
      if !IsKnown(c.header.parent, false) { return UnknownParent; }
      NoteDetails(c.header.parent);
      assert View() == start;
      GenesisIn(start, params);
      if c.future { return FutureTime; }
      var pd := details[c.header.parent];
      if !c.valid || c.header.number != pd.number + 1 || c.header.number >= WORD32 { return Invalid; }
      verdict := Accept;
    }

    /** Appends a block to its parent's list, and writes that and an empty list for the block. */
    method RecordChild(parent: Hash, h: Hash, ghost l: Lists)
      requires ListView() == Noted(Noted(l, h), parent) && parent in childDb
      modifies this`childMemo, this`childDb
      ensures ListView() == Recorded(l, parent, h)
    {
      childMemo := childMemo[parent := childMemo[parent] + [h]];
      childDb := childDb[parent := childMemo[parent]][h := []];
    }

    /** Imports a block: what becomes of the chain, the lists of children and the memo of numbers, and what is reported. */
    method Import(c: Candidate) returns (verdict: Verdict, dead: seq<Hash>, live: seq<Hash>)
      requires Valid() && Genuine(View(), c)
      modifies this
      ensures verdict == Judge(old(View()), params, c)
      ensures Report(View(), dead, live) == ChainImport.Import(old(View()), params, c)
      ensures CachedView() == CacheRuns.Step(old(CachedView()), params, Imports(c))
      ensures Valid()
    {
      hide Inv, ListsSound, Noted, Recorded, Judge, ChainImport.Import, Genuine, CacheRuns.Step, ListsAfter, NumbersAfter, Sane;
      ghost var before := CachedView();
      ImportedKeeps(before, params, c);
      StepIs(before, params, c);
      verdict := Judged(c);
      RefusedSame(before.chain, params, c);
      dead, live := [], [];
      if verdict.Accept? {
        ParentListed(before, params, c);
        RecordChild(c.header.parent, c.hash, before.lists);
        dead, live := StoreBlock(c);
      }
    }

    /** Stores a block that has passed the checks, and makes it the head if it is better. */
    method StoreBlock(c: Candidate) returns (dead: seq<Hash>, live: seq<Hash>)
      requires Inv(View(), params) && Genuine(View(), c) && Judge(View(), params, c).Accept?
      modifies this`details, this`blocks, this`lastBlockHash, this`lastBlockNumber, this`blockHashes, this`bloomMemo, this`bloomDb, this`numberMemo
      ensures Report(View(), dead, live) == ChainImport.Import(old(View()), params, c)
      ensures numberMemo == NumbersAfter(old(numberMemo), old(View()), params, c)
    {
      hide NumbersIndexed, BloomsIndexed, HeadIsBest, DifficultiesAddUp, WellNumbered, Agree, WellShaped, Reindexed, Splits,
        Reverse, Chain, SharedLength, NumbersAfter, Adopt, ChainImport.Import, Genuine;
      KeepsNumbers(numberMemo, View(), params, c);
      AcceptedIs(View(), params, c);
      var pd := details[c.header.parent];
      var td := pd.totalDifficulty + c.header.difficulty;
      var route, common := [], NO_HASH;
      var last := lastBlockHash;
      ghost var was, now := [], [];
      if td > details[last].totalDifficulty
         || (params.tieBreakingGas && td == details[last].totalDifficulty && c.header.gasUsed > blocks[last].gasUsed)
      {
        route, common, was, now := Reorganise(c);
        lastBlockHash, lastBlockNumber := c.hash, c.header.number;
      }
      details := details[c.hash := Details(pd.number + 1, td, c.header.parent)];
      blocks := blocks[c.hash := c.header];
      dead, live := SplitRoute(route, common, was, now);
    }

    /**
      The blocks whose slots match. Of the canonical blocks that contain the query exactly those that are looked at
      are found, which are all in the range unless it ends in the last 255 numbers of 32 bits.
     */
    method WithBlockBloom(q: Bloom, earliest: nat, latest: nat) returns (ret: seq<nat>)
      requires Valid() && earliest < WORD32 && latest < WORD32
      ensures Increasing(ret) && forall n :: n in ret ==> n >= earliest
      ensures forall n :: 1 <= n <= lastBlockNumber && q <= blocks[Canonical(View(), params)[n]].bloom
                          ==> (n in ret <==> Scanned(n, earliest, latest))
      ensures latest + SPAN <= WORD32 ==>
        forall n :: 1 <= n <= lastBlockNumber && earliest <= n <= latest && q <= blocks[Canonical(View(), params)[n]].bloom
                    ==> n in ret
    {
      hide Scanned, Hit, Chain, WellNumbered, Agree, DifficultiesAddUp, HeadIsBest, NumbersIndexed, BloomsIndexed;
      ret := BloomIndex.WithBlockBloom(Blooms(bloomMemo, bloomDb), q, earliest, latest);
      forall n: nat | n in ret ensures n >= earliest { ScannedAfter(n, earliest, latest); }
      forall n | 1 <= n <= lastBlockNumber && q <= blocks[Canonical(View(), params)[n]].bloom
        ensures n in ret <==> Scanned(n, earliest, latest)
      {
        CanonicalIsHit(View(), params, q, n);
      }
      if latest + SPAN <= WORD32 {
        forall n | 1 <= n <= lastBlockNumber && earliest <= n <= latest ensures Scanned(n, earliest, latest) {
          ScannedExactly(n, earliest, latest);
        }
      }
    }

    /** The hash that a number leads to, through the memo, which is filled by it. */
    method NumberHash(n: nat) returns (h: Hash)
      requires Valid()
      modifies this`numberMemo
      ensures h == CacheRuns.NumberHash(old(numberMemo), View(), params, n)
      ensures CachedView() == CacheRuns.Step(old(CachedView()), params, ReadsNumber(n)) && Valid()
      ensures NumbersRight(old(CachedView()), params) && n <= lastBlockNumber ==> h == Canonical(View(), params)[n]
    {
      hide Inv, ListsSound, Canonical, Sane;
      ghost var before := CachedView();
      InvSane(before.chain, params);
      if n == 0 { return params.genesis; }
      if n in numberMemo { return numberMemo[n]; }
      if n !in blockHashes { return NO_HASH; }
      numberMemo := numberMemo[n := blockHashes[n]];
      SameLists(before, CachedView(), params);
      h := blockHashes[n];
    }

    /** Any memoised bloom chunks and details may go; numbers are never dropped. */
    method GarbageCollect(ids: set<nat>, hashes: set<Hash>)
      requires Valid()
      modifies this`bloomMemo, this`childMemo
      ensures Valid()
      ensures CachedView()
              == CacheRuns.Step(CacheRuns.Step(old(CachedView()), params, BloomEvent(Collected(ids))), params, Forgets(hashes))
    {
      hide Inv, ListsSound;
      CollectKeeps(CachedView(), params, ids, hashes);
      bloomMemo := bloomMemo - ids;
      childMemo := childMemo - hashes;
    }
  }

  lemma CollectKeeps(x: Cached, p: Params, ids: set<nat>, hashes: set<Hash>)
    requires Inv(x.chain, p) && ListsSound(x, p)
    ensures var y := CacheRuns.Step(x, p, BloomEvent(Collected(ids)));
      && Sane(y.chain, p)
      && var z := CacheRuns.Step(y, p, Forgets(hashes));
         && Inv(z.chain, p) && ListsSound(z, p) && z.numbers == x.numbers && z.lists == Forgotten(x.lists, hashes)
         && z.chain == WithBlooms(x.chain, Blooms(x.chain.indexes.blooms.memo - ids, x.chain.indexes.blooms.db))
  {
    hide Inv, ListsSound, Forgotten;
    InvSane(x.chain, p);
    StepChain(x, p, BloomEvent(Collected(ids)));
    StepSound(x, p, BloomEvent(Collected(ids)));
    var y := CacheRuns.Step(x, p, BloomEvent(Collected(ids)));
    InvSane(y.chain, p);
    StepChain(y, p, Forgets(hashes));
    StepSound(y, p, Forgets(hashes));
  }

  /** The memo without the numbers from `first` to `last`. */
  function Without(memo: map<nat, Hash>, first: nat, last: nat): map<nat, Hash> {
    map n | n in memo && !(first <= n <= last) :: memo[n]
  }

  /** The numbers of the blocks that leave the chain are the ones that go. */
  lemma ErasedNumbers(memo: map<nat, Hash>, s: ChainState, p: Params, c: Candidate, dead: seq<Hash>)
    requires Inv(s, p) && Genuine(s, c) && Judge(s, p, c).Accept? && Better(s, p, c) && Sane(Grown(s, c), p)
    requires dead == Adopt(Grown(s, c), p, c.hash).dead && c.hash !in s.tree
    ensures |dead| <= s.headNumber && NumbersAfter(memo, s, p, c) == Without(memo, s.headNumber - |dead| + 1, s.headNumber)
    ensures dead == [] ==> NumbersAfter(memo, s, p, c) == memo
  {
    hide NumbersIndexed, BloomsIndexed, HeadIsBest, DifficultiesAddUp, WellNumbered, Agree, WellShaped, Reindexed, Chain, SharedLength, Better, Reverse;
    var g := Grown(s, c);
    GrownChains(s, p, c);
    SharedPositive(g.tree, p.genesis, g.head, c.hash);
    var was, k := Canonical(g, p), Shared(g, p, c.hash);
    CutAndAppend(was, Chain(g.tree, p.genesis, c.hash));
  }

  lemma StepIs(x: Cached, p: Params, c: Candidate)
    requires Inv(x.chain, p) && Genuine(x.chain, c)
    ensures Sane(x.chain, p)
    ensures CacheRuns.Step(x, p, Imports(c))
            == if Judge(x.chain, p, c).Accept? then
                 Cached(ChainImport.Import(x.chain, p, c).state, Recorded(x.lists, c.header.parent, c.hash),
                        NumbersAfter(x.numbers, x.chain, p, c))
               else Cached(x.chain, ListsAfter(x.lists, x.chain, p, c), x.numbers)
  {
    RefusedSame(x.chain, p, c);
    InvSane(x.chain, p);
    hide Inv, Judge, ChainImport.Import, Recorded, Noted;
  }

  lemma ImportedKeeps(x: Cached, p: Params, c: Candidate)
    requires Inv(x.chain, p) && ListsSound(x, p) && Genuine(x.chain, c)
    ensures Sane(x.chain, p) && Inv(CacheRuns.Step(x, p, Imports(c)).chain, p) && ListsSound(CacheRuns.Step(x, p, Imports(c)), p)
  {
    hide Inv, ListsSound, Genuine;
    InvSane(x.chain, p);
    StepSound(x, p, Imports(c));
    StepChain(x, p, Imports(c));
  }

  /** Storing an accepted block, and what changes if it is better than the head. */
  lemma AcceptedIs(s: ChainState, p: Params, c: Candidate)
    requires Sane(s, p) && Genuine(s, c) && Judge(s, p, c).Accept?
    ensures !Better(s, p, c) ==> ChainImport.Import(s, p, c) == Report(Grown(s, c), [], [])
    ensures Better(s, p, c) ==>
      && Sane(Grown(s, c), p)
      && var r := Adopt(Grown(s, c), p, c.hash);
         && ChainImport.Import(s, p, c) == r
         && r.state == Grown(s, c).(head := c.hash, headNumber := NewDetails(s, c).number, indexes := r.state.indexes)
  {
    GrownSane(s, p, c);
    hide WellNumbered, WellShaped, Agree, Chain, SharedLength, Reverse, Reindexed, Better;
  }

  lemma ParentListed(x: Cached, p: Params, c: Candidate)
    requires Inv(x.chain, p) && ListsSound(x, p) && Judge(x.chain, p, c).Accept?
    ensures c.header.parent in Noted(Noted(x.lists, c.hash), c.header.parent).db
  {
    hide Inv;
  }

  lemma KeepsNumbers(memo: map<nat, Hash>, s: ChainState, p: Params, c: Candidate)
    requires Sane(s, p) && Genuine(s, c) && Judge(s, p, c).Accept?
    ensures !Better(s, p, c) ==> NumbersAfter(memo, s, p, c) == memo
  {
  }

  lemma GenesisIn(s: ChainState, p: Params)
    requires Inv(s, p)
    ensures p.genesis in s.tree && NO_HASH !in s.tree
  {
    GenesisKnown(s, p);
  }

  lemma RefusedSame(s: ChainState, p: Params, c: Candidate)
    requires Inv(s, p) && Genuine(s, c)
    ensures !Judge(s, p, c).Accept? ==> ChainImport.Import(s, p, c) == Report(s, [], [])
  {
    hide Judge, Inv;
    InvSane(s, p);
  }

  lemma SameLists(x: Cached, y: Cached, p: Params)
    requires x.chain == y.chain && x.lists == y.lists
    ensures ListsSound(x, p) == ListsSound(y, p)
  {
  }

  lemma SetMemoKeeps(s: Blooms, level: nat, item: nat, b: Bloom)
    requires WellShaped(s)
    ensures SetMemo(s, level, item, b).memo.Keys >= s.memo.Keys
  {
  }

  lemma LowChunksMemoised(s: Blooms, begin: nat, end: nat)
    requires WellShaped(s) && begin < end
    ensures forall i :: begin / INDEX_SIZE <= i < (end - 1) / INDEX_SIZE + 1 ==> ChunkId(0, i) in ClearLow(s, begin, end).memo
  {
    forall i | begin / INDEX_SIZE <= i < (end - 1) / INDEX_SIZE + 1
      ensures ChunkId(0, i) in ClearLow(s, begin, end).memo
    {
      var n := if i == begin / INDEX_SIZE then begin else i * INDEX_SIZE;
      assert begin <= n < end && n / INDEX_SIZE == i;
      ClearLowMemo(s, begin, end, ChunkId(0, i));
    }
  }
}
