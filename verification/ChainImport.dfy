/**
  Importing blocks into the chain: fork choice, reorganisation, the persisted index from number to hash
  and the bloom index, as a state machine over a growing tree of blocks.
 */
module ChainImport {
  import opened BlockTree
  import opened BloomIndex

  /** `bloom` is the header's log bloom together with the bits of the author's address. */
  datatype Header = Header(parent: Hash, number: nat, difficulty: nat, gasUsed: nat, bloom: Bloom)

  datatype Params = Params(genesis: Hash, tieBreakingGas: bool)

  /** The indexes that are kept for the canonical chain. */
  datatype Indexes = Indexes(numbers: map<nat, Hash>, blooms: Blooms)

  datatype ChainState = ChainState(tree: Tree, headers: map<Hash, Header>, head: Hash, headNumber: nat, indexes: Indexes)

  /** `valid` is the outcome of verification and enactment, `future` whether the timestamp is ahead of the clock. */
  datatype Candidate = Candidate(hash: Hash, header: Header, future: bool, valid: bool)

  datatype Verdict = Accept | AlreadyHaveBlock | UnknownParent | FutureTime | Invalid

  function Start(p: Params, genesis: Header): ChainState {
    ChainState(map[p.genesis := Details(0, genesis.difficulty, NO_HASH)], map[p.genesis := genesis], p.genesis, 0,
               Indexes(map[], Blooms(map[], map[])))
  }

  /** With `current` set, stored blocks numbered above the head do not count as known. */
  predicate IsKnown(s: ChainState, p: Params, h: Hash, current: bool) {
    h == p.genesis || (h in s.tree && (current ==> s.tree[h].number <= s.headNumber))
  }

  function Judge(s: ChainState, p: Params, c: Candidate): Verdict {
    if IsKnown(s, p, c.hash, true) then AlreadyHaveBlock
    else if !IsKnown(s, p, c.header.parent, false) then UnknownParent
    else if c.future then FutureTime
    else if c.header.parent !in s.tree || !c.valid || c.header.number != s.tree[c.header.parent].number + 1
            || c.header.number >= WORD32 then Invalid
    else Accept
  }

  function NewDetails(s: ChainState, c: Candidate): Details
    requires c.header.parent in s.tree
  {
    var pd := s.tree[c.header.parent];
    Details(pd.number + 1, pd.totalDifficulty + c.header.difficulty, c.header.parent)
  }

  /** More total difficulty than the head, or as much and, if ties are broken by gas, more gas used. */
  predicate Better(s: ChainState, p: Params, c: Candidate)
    requires c.header.parent in s.tree && s.head in s.tree && s.head in s.headers
  {
    var td, headTd := NewDetails(s, c).totalDifficulty, s.tree[s.head].totalDifficulty;
    td > headTd || (p.tieBreakingGas && td == headTd && c.header.gasUsed > s.headers[s.head].gasUsed)
  }

  /** Enters blocks into the indexes, last block first. */
  function Publish(x: Indexes, blocks: seq<Hash>, headers: map<Hash, Header>): (r: Indexes)
    requires WellShaped(x.blooms) && forall h :: h in blocks ==> h in headers
    ensures WellShaped(r.blooms)
    decreases |blocks|
  {
    if blocks == [] then x
    else Publish(Enter(x, blocks[|blocks| - 1], headers), blocks[..|blocks| - 1], headers)
  }

  function Enter(x: Indexes, h: Hash, headers: map<Hash, Header>): (r: Indexes)
    requires WellShaped(x.blooms) && h in headers
    ensures WellShaped(r.blooms) && r.numbers == x.numbers[headers[h].number := h]
  {
    Indexes(x.numbers[headers[h].number := h], AddBlock(x.blooms, headers[h].number, headers[h].bloom))
  }

  /** The blooms of reverted blocks are cleared. */
  function Revert(x: Indexes, begin: nat, end: nat): (r: Indexes)
    requires WellShaped(x.blooms) && begin <= end
    ensures WellShaped(r.blooms) && r.numbers == x.numbers
  {
    if begin < end then x.(blooms := ClearBlocks(x.blooms, begin, end)) else x
  }

  datatype Report = Report(state: ChainState, dead: seq<Hash>, live: seq<Hash>)

  /** Stored details repeat the header. */
  predicate Agree(d: Details, header: Header, isGenesis: bool) {
    header.number == d.number < WORD32 && (isGenesis || header.parent == d.parent)
  }

  /** The part of the invariant that importing relies on. */
  predicate Sane(s: ChainState, p: Params) {
    && WellNumbered(s.tree, p.genesis)
    && s.headers.Keys == s.tree.Keys && (forall h :: h in s.tree ==> Agree(s.tree[h], s.headers[h], h == p.genesis))
    && s.head in s.tree && s.headNumber == s.tree[s.head].number
    && WellShaped(s.indexes.blooms)
  }

  /** A hash determines its header. */
  predicate Genuine(s: ChainState, c: Candidate) {
    c.hash != NO_HASH && (c.hash in s.headers ==> s.headers[c.hash] == c.header)
  }

  /** The tree with the new block in it; the head and the indexes have not changed yet. */
  function Grown(s: ChainState, c: Candidate): ChainState
    requires c.header.parent in s.tree
  {
    s.(tree := s.tree[c.hash := NewDetails(s, c)], headers := s.headers[c.hash := c.header])
  }

  function Canonical(s: ChainState, p: Params): seq<Hash>
    requires Sane(s, p)
  {
    Chain(s.tree, p.genesis, s.head)
  }

  /** The number of blocks that the canonical chain shares with the chain of h. */
  function Shared(s: ChainState, p: Params, h: Hash): nat
    requires Sane(s, p) && h in s.tree
  {
    SharedLength(Canonical(s, p), Chain(s.tree, p.genesis, h))
  }

  function Reindexed(x: Indexes, headers: map<Hash, Header>, k: nat, end: nat, live: seq<Hash>): (r: Indexes)
    requires WellShaped(x.blooms) && k <= end && forall h :: h in live ==> h in headers
    ensures WellShaped(r.blooms)
  {
    Publish(Revert(x, k, end), live, headers)
  }

  /** Makes h the head: blocks above the meeting point of the two chains are reverted, the others published. */
  function Adopt(s: ChainState, p: Params, h: Hash): Report
    requires Sane(s, p) && h in s.tree
  {
    var was, now, k := Canonical(s, p), Chain(s.tree, p.genesis, h), Shared(s, p, h);
    Report(s.(head := h, headNumber := s.tree[h].number, indexes := Reindexed(s.indexes, s.headers, k, |was|, now[k..])),
           Reverse(was[k..]), now[k..])
  }

  function Import(s: ChainState, p: Params, c: Candidate): Report
    requires Sane(s, p) && Genuine(s, c)
  {
    if !Judge(s, p, c).Accept? then Report(s, [], [])
    else if !Better(s, p, c) then Report(Grown(s, c), [], [])
    else
      GrownSane(s, p, c);
      Adopt(Grown(s, c), p, c.hash)
  }

  /** Growing keeps the tree well numbered and, even if the block was stored before, every chain. */
  lemma GrownSane(s: ChainState, p: Params, c: Candidate)
    requires Sane(s, p) && Genuine(s, c) && Judge(s, p, c).Accept?
    ensures Sane(Grown(s, c), p)
  {
    hide WellShaped, WellNumbered, Agree, Judge, Genuine;
    AcceptedFits(s, p, c);
    var g := Grown(s, c);
    StoredNumbered(s.tree, p.genesis, c.hash, NewDetails(s, c));
    forall h | h in g.tree ensures Agree(g.tree[h], g.headers[h], h == p.genesis) {}
  }

  /** What an accepted block has in common with its parent and, if it was stored before, with its details. */
  lemma AcceptedFits(s: ChainState, p: Params, c: Candidate)
    requires Sane(s, p) && Genuine(s, c) && Judge(s, p, c).Accept?
    ensures c.hash != p.genesis && c.hash != NO_HASH && c.header.parent in s.tree && c.header.parent != c.hash
    ensures var d := NewDetails(s, c);
      && d.number == c.header.number && Agree(d, c.header, false)
      && (c.hash in s.tree ==> s.tree[c.hash].number == d.number)
      && (c.hash == s.head ==> s.headNumber == d.number)
  {
    hide WellShaped, WellNumbered;
    if c.hash in s.tree { assert Agree(s.tree[c.hash], s.headers[c.hash], c.hash == p.genesis); }
  }

  // ---------- the invariant ----------

  /** Total difficulties add up along parents. */
  predicate DifficultiesAddUp(s: ChainState, p: Params)
    requires Sane(s, p)
  {
    && s.tree[p.genesis].totalDifficulty == s.headers[p.genesis].difficulty
    && (forall h :: h in s.tree && h != p.genesis ==>
          s.tree[h].totalDifficulty == s.tree[s.tree[h].parent].totalDifficulty + s.headers[h].difficulty)
  }

  /** Block h is no better than block g: in difficulty, or lexicographically in difficulty and gas used. */
  predicate NoBetter(s: ChainState, p: Params, h: Hash, g: Hash)
    requires Sane(s, p) && h in s.tree && g in s.tree
  {
    && s.tree[h].totalDifficulty <= s.tree[g].totalDifficulty
    && (p.tieBreakingGas && s.tree[h].totalDifficulty == s.tree[g].totalDifficulty ==>
          s.headers[h].gasUsed <= s.headers[g].gasUsed)
  }

  predicate HeadIsBest(s: ChainState, p: Params)
    requires Sane(s, p)
  {
    forall h :: h in s.tree ==> NoBetter(s, p, h, s.head)
  }

  predicate NumbersIndexed(s: ChainState, p: Params)
    requires Sane(s, p)
  {
    forall n :: 1 <= n <= s.headNumber ==> n in s.indexes.numbers && s.indexes.numbers[n] == Canonical(s, p)[n]
  }

  predicate BloomsIndexed(s: ChainState, p: Params)
    requires Sane(s, p)
  {
    forall n :: 1 <= n <= s.headNumber ==> Stored(s.indexes.blooms, n, s.headers[Canonical(s, p)[n]].bloom)
  }

  predicate Inv(s: ChainState, p: Params) {
    && Sane(s, p)
    && DifficultiesAddUp(s, p)
    && HeadIsBest(s, p)
    && NumbersIndexed(s, p)
    && BloomsIndexed(s, p)
  }

  lemma StartInv(p: Params, genesis: Header)
    requires p.genesis != NO_HASH && genesis.number == 0
    ensures Inv(Start(p, genesis), p)
  {
  }

  // ---------- growth ----------

  /** A stored block that is imported again gets the details it had. */
  lemma ReimportSame(s: ChainState, p: Params, c: Candidate)
    requires Inv(s, p) && Genuine(s, c) && Judge(s, p, c).Accept? && c.hash in s.tree
    ensures Grown(s, c) == s && !Better(s, p, c)
  {
    hide NumbersIndexed, BloomsIndexed, WellShaped;
    assert c.header == s.headers[c.hash];
    assert s.tree[c.hash] == NewDetails(s, c);
    assert NoBetter(s, p, c.hash, s.head);
  }

  /** A new leaf leaves every other chain, and its own is its parent's with the leaf on top. */
  lemma GrownChains(s: ChainState, p: Params, c: Candidate)
    requires Sane(s, p) && Genuine(s, c) && Judge(s, p, c).Accept? && c.hash !in s.tree
    ensures Sane(Grown(s, c), p) && Canonical(Grown(s, c), p) == Canonical(s, p)
    ensures Chain(Grown(s, c).tree, p.genesis, c.hash) == Chain(s.tree, p.genesis, c.header.parent) + [c.hash]
  {
    GrownSane(s, p, c);
    ChainStable(s.tree, p.genesis, s.head, c.hash, NewDetails(s, c));
    ChainStable(s.tree, p.genesis, c.header.parent, c.hash, NewDetails(s, c));
  }

  /** All that growing keeps: everything but, when the block is better than the head, the head being best. */
  lemma GrownKeeps(s: ChainState, p: Params, c: Candidate)
    requires Inv(s, p) && Genuine(s, c) && Judge(s, p, c).Accept? && c.hash !in s.tree
    ensures var g := Grown(s, c); Sane(g, p) && DifficultiesAddUp(g, p) && NumbersIndexed(g, p) && BloomsIndexed(g, p)
    ensures if Better(s, p, c) then forall h :: h in Grown(s, c).tree ==> NoBetter(Grown(s, c), p, h, c.hash)
            else HeadIsBest(Grown(s, c), p)
  {
    GrownChains(s, p, c);
    GrownScores(s, p, c);
    hide Chain, Stored, DifficultiesAddUp, HeadIsBest, NoBetter, Better, WellNumbered, WellShaped;
  }

  lemma ParentStored(s: ChainState, p: Params, h: Hash)
    requires Sane(s, p) && h in s.tree && h != p.genesis
    ensures s.tree[h].parent in s.tree
  {
  }

  lemma GrownScores(s: ChainState, p: Params, c: Candidate)
    requires Inv(s, p) && Genuine(s, c) && Judge(s, p, c).Accept? && c.hash !in s.tree && Sane(Grown(s, c), p)
    ensures DifficultiesAddUp(Grown(s, c), p)
    ensures if Better(s, p, c) then forall h :: h in Grown(s, c).tree ==> NoBetter(Grown(s, c), p, h, c.hash)
            else HeadIsBest(Grown(s, c), p)
  {
    hide NumbersIndexed, BloomsIndexed, WellShaped, WellNumbered, Agree;
    forall h | h in s.tree && h != p.genesis ensures s.tree[h].parent in s.tree { ParentStored(s, p, h); }
    forall h | h in s.tree ensures NoBetter(s, p, h, s.head) {}
  }

  // ---------- reorganisation ----------

  predicate Numbered(blocks: seq<Hash>, headers: map<Hash, Header>, first: nat) {
    && (forall h :: h in blocks ==> h in headers)
    && (forall i :: 0 <= i < |blocks| ==> headers[blocks[i]].number == first + i)
  }

  /** Entering a contiguous stretch of blocks indexes exactly that stretch. */
  lemma {:induction false} PublishNumbers(x: Indexes, blocks: seq<Hash>, headers: map<Hash, Header>, first: nat, n: nat)
    requires WellShaped(x.blooms) && Numbered(blocks, headers, first)
    ensures var r := Publish(x, blocks, headers).numbers;
      if first <= n < first + |blocks| then n in r && r[n] == blocks[n - first]
      else (n in r <==> n in x.numbers) && (n in r ==> r[n] == x.numbers[n])
    decreases |blocks|
  {
    hide WellShaped, Enter;
    if blocks != [] {
      PublishNumbers(Enter(x, blocks[|blocks| - 1], headers), blocks[..|blocks| - 1], headers, first, n);
    }
  }

  lemma {:induction false} PublishBlooms(x: Indexes, blocks: seq<Hash>, headers: map<Hash, Header>, first: nat, n: nat, b: Bloom)
    requires WellShaped(x.blooms) && Numbered(blocks, headers, first)
    requires first + |blocks| <= WORD32 && n < WORD32
    requires (first <= n < first + |blocks| && b == headers[blocks[n - first]].bloom) || Stored(x.blooms, n, b)
    ensures Stored(Publish(x, blocks, headers).blooms, n, b)
    decreases |blocks|
  {
    hide Stored, WellShaped, AddBlock;
    if blocks != [] {
      var h := blocks[|blocks| - 1];
      AddBlockCovers(x.blooms, headers[h].number, headers[h].bloom, n, b);
      PublishBlooms(Enter(x, h, headers), blocks[..|blocks| - 1], headers, first, n, b);
    }
  }

  /** Making another block the head leaves the tree. */
  lemma AdoptSane(s: ChainState, p: Params, h: Hash)
    requires Sane(s, p) && h in s.tree
    ensures var s' := Adopt(s, p, h).state;
      Sane(s', p) && s'.tree == s.tree && s'.headers == s.headers && Canonical(s', p) == Chain(s.tree, p.genesis, h)
  {
    hide WellNumbered, Chain, SharedLength, Reverse, Publish, Revert, WellShaped;
  }

  lemma CutAndAppend(was: seq<Hash>, now: seq<Hash>)
    ensures var k := SharedLength(was, now);
      && k + |Reverse(was[k..])| == |was| && was[k..] == Reverse(Reverse(was[k..]))
      && now == was[..k] + now[k..]
  {
    hide Reverse, SharedLength;
    var k := SharedLength(was, now);
    ReverseTwice(was[k..]);
    assert now == now[..k] + now[k..];
  }

  /** Position in a chain is block number. */
  lemma ChainNumbered(s: ChainState, p: Params, h: Hash)
    requires Sane(s, p) && h in s.tree
    ensures Numbered(Chain(s.tree, p.genesis, h), s.headers, 0)
    ensures |Chain(s.tree, p.genesis, h)| <= WORD32
  {
    hide WellShaped, WellNumbered, Chain;
    var now := Chain(s.tree, p.genesis, h);
    assert Agree(s.tree[h], s.headers[h], h == p.genesis);
    forall i | 0 <= i < |now| ensures s.headers[now[i]].number == i {
      ChainPrefix(s.tree, p.genesis, h, i);
      assert Agree(s.tree[now[i]], s.headers[now[i]], now[i] == p.genesis);
    }
  }

  lemma NumberedDrop(blocks: seq<Hash>, headers: map<Hash, Header>, k: nat)
    requires Numbered(blocks, headers, 0) && k <= |blocks|
    ensures Numbered(blocks[k..], headers, k)
  {
  }

  lemma LiveNumbered(s: ChainState, p: Params, h: Hash)
    requires Sane(s, p) && h in s.tree
    ensures Numbered(Chain(s.tree, p.genesis, h)[Shared(s, p, h)..], s.headers, Shared(s, p, h))
    ensures |Chain(s.tree, p.genesis, h)| <= WORD32
  {
    hide SharedLength, WellShaped, WellNumbered, Chain, Numbered;
    ChainNumbered(s, p, h);
    NumberedDrop(Chain(s.tree, p.genesis, h), s.headers, Shared(s, p, h));
  }

  lemma AdoptNumbers(s: ChainState, p: Params, h: Hash)
    requires Sane(s, p) && h in s.tree && NumbersIndexed(s, p)
    requires Sane(Adopt(s, p, h).state, p)
    ensures NumbersIndexed(Adopt(s, p, h).state, p)
  {
    hide Chain, SharedLength, WellShaped, WellNumbered, Reverse, Publish, Numbered, ClearBlocks;
    var was, now, k := Canonical(s, p), Chain(s.tree, p.genesis, h), Shared(s, p, h);
    LiveNumbered(s, p, h);
    forall n | 1 <= n <= s.tree[h].number
      ensures var r := Adopt(s, p, h).state.indexes.numbers; n in r && r[n] == now[n]
    {
      PublishNumbers(Revert(s.indexes, k, |was|), now[k..], s.headers, k, n);
      if n < k { assert now[n] == now[..k][n] == was[..k][n]; }
    }
  }

  /** Reverting blocks leaves the coverage of the blocks below them. */
  lemma RevertStored(x: Indexes, begin: nat, end: nat, n: nat, b: Bloom)
    requires WellShaped(x.blooms) && begin <= end <= WORD32 && n < begin && Stored(x.blooms, n, b)
    ensures Stored(Revert(x, begin, end).blooms, n, b)
  {
    hide Stored, ClearBlocks;
    if begin < end { ClearBlocksCovers(x.blooms, begin, end, n, b); }
  }

  lemma AdoptBlooms(s: ChainState, p: Params, h: Hash)
    requires Sane(s, p) && h in s.tree && BloomsIndexed(s, p)
    requires Sane(Adopt(s, p, h).state, p)
    ensures BloomsIndexed(Adopt(s, p, h).state, p)
  {
    hide Chain, SharedLength, WellShaped, WellNumbered, Reverse, Publish, Numbered, ClearBlocks, Stored, Revert;
    var was, now, k := Canonical(s, p), Chain(s.tree, p.genesis, h), Shared(s, p, h);
    LiveNumbered(s, p, h);
    LiveNumbered(s, p, s.head);
    forall n | 1 <= n <= s.tree[h].number
      ensures Stored(Adopt(s, p, h).state.indexes.blooms, n, s.headers[now[n]].bloom)
    {
      var b := s.headers[now[n]].bloom;
      if n < k {
        assert now[n] == now[..k][n] == was[..k][n];
        RevertStored(s.indexes, k, |was|, n, b);
      }
      PublishBlooms(Revert(s.indexes, k, |was|), now[k..], s.headers, k, n, b);
    }
  }

  /** Scores depend on the tree and the headers alone. */
  lemma SameScores(s: ChainState, s': ChainState, p: Params)
    requires Sane(s, p) && Sane(s', p) && s'.tree == s.tree && s'.headers == s.headers
    ensures DifficultiesAddUp(s', p) == DifficultiesAddUp(s, p)
    ensures forall h, g :: h in s.tree && g in s.tree ==> NoBetter(s', p, g, h) == NoBetter(s, p, g, h)
  {
    hide WellNumbered, WellShaped, Agree;
  }

  lemma AdoptKeeps(s: ChainState, p: Params, h: Hash)
    requires Sane(s, p) && DifficultiesAddUp(s, p) && NumbersIndexed(s, p) && BloomsIndexed(s, p)
    requires h in s.tree && forall g :: g in s.tree ==> NoBetter(s, p, g, h)
    ensures Inv(Adopt(s, p, h).state, p)
  {
    AdoptSane(s, p, h);
    AdoptNumbers(s, p, h);
    AdoptBlooms(s, p, h);
    hide NumbersIndexed, BloomsIndexed, DifficultiesAddUp, NoBetter, Reindexed, Chain, Reverse, WellShaped, WellNumbered, Agree, SharedLength;
    SameScores(s, Adopt(s, p, h).state, p);
  }

  lemma ImportKeeps(s: ChainState, p: Params, c: Candidate)
    requires Inv(s, p) && Genuine(s, c)
    ensures Inv(Import(s, p, c).state, p)
  {
    hide Adopt, Better, WellNumbered, WellShaped, Agree, NoBetter, DifficultiesAddUp, HeadIsBest, NumbersIndexed, BloomsIndexed;
    if Judge(s, p, c).Accept? {
      if c.hash in s.tree {
        ReimportSame(s, p, c);
      } else {
        GrownKeeps(s, p, c);
        if Better(s, p, c) { AdoptKeeps(Grown(s, c), p, c.hash); }
      }
    }
  }

  /** Cutting the dead blocks from the old chain and appending the live ones gives exactly the new chain. */
  lemma ReportIsExact(s: ChainState, p: Params, c: Candidate)
    requires Inv(s, p) && Genuine(s, c)
    ensures var r := Import(s, p, c);
      && Sane(r.state, p) && |r.dead| < |Canonical(s, p)|
      && Canonical(s, p)[|Canonical(s, p)| - |r.dead|..] == Reverse(r.dead)
      && Canonical(r.state, p) == Canonical(s, p)[..|Canonical(s, p)| - |r.dead|] + r.live
      && (r.live == [] <==> r.state.head == s.head)
      && (forall h :: h in r.dead ==> h !in Canonical(r.state, p))
  {
    hide Better, Adopt, Reverse, Chain, WellNumbered, WellShaped, Agree, DifficultiesAddUp, HeadIsBest, NumbersIndexed, BloomsIndexed;
    var was := Canonical(s, p);
    assert was[|was|..] == [] && was[..|was|] + [] == was && Reverse([]) == [] && |was| > 0;
    if Judge(s, p, c).Accept? {
      if c.hash in s.tree {
        ReimportSame(s, p, c);
      } else {
        GrownChains(s, p, c);
        if Better(s, p, c) { AdoptIsExact(Grown(s, c), p, c.hash); }
      }
    }
  }

  lemma AdoptIsExact(s: ChainState, p: Params, h: Hash)
    requires Sane(s, p) && h in s.tree && h !in Canonical(s, p)
    ensures var r := Adopt(s, p, h);
      && Sane(r.state, p) && |r.dead| < |Canonical(s, p)|
      && Canonical(s, p)[|Canonical(s, p)| - |r.dead|..] == Reverse(r.dead)
      && Canonical(r.state, p) == Canonical(s, p)[..|Canonical(s, p)| - |r.dead|] + r.live
      && r.live != [] && r.live[|r.live| - 1] == h && r.state.head == h
      && (forall g :: g in r.dead ==> g !in Canonical(r.state, p))
  {
    hide SharedLength, Chain, Reverse, WellNumbered, WellShaped, Agree, Reindexed;
    var was, now, k := Canonical(s, p), Chain(s.tree, p.genesis, h), Shared(s, p, h);
    AdoptSane(s, p, h);
    CutAndAppend(was, now);
    SharedPositive(s.tree, p.genesis, s.head, h);
    ReverseMembers(was[k..]);
    forall g | g in was[k..] ensures g !in now { AboveMeetingApart(s.tree, p.genesis, s.head, h, g); }
    TopNotShared(was, now);
  }
}
