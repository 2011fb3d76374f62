/**
  Runs of the block chain: blocks are imported, and the memo in front of the bloom database is filled by reads
  and emptied by garbage collection, in any order.
 */
module ChainRuns {
  import opened BlockTree
  import opened BloomIndex
  import opened ChainImport

  datatype Event =
    | Imported(candidate: Candidate)
    | Read(id: nat)
    | Collected(ids: set<nat>)

  /** A read memoises what it found in the database. */
  function Touched(b: Blooms, id: nat): (r: Blooms)
    requires WellShaped(b)
    ensures WellShaped(r)
  {
    if id !in b.memo && id in b.db then b.(memo := b.memo[id := b.db[id]]) else b
  }

  /** Garbage collection drops memoised chunks, altered or not. */
  function Dropped(b: Blooms, ids: set<nat>): (r: Blooms)
    requires WellShaped(b)
    ensures WellShaped(r)
  {
    b.(memo := b.memo - ids)
  }

  function WithBlooms(s: ChainState, b: Blooms): ChainState {
    s.(indexes := s.indexes.(blooms := b))
  }

  predicate Possible(s: ChainState, e: Event) {
    e.Imported? ==> Genuine(s, e.candidate)
  }

  function Step(s: ChainState, p: Params, e: Event): ChainState
    requires Sane(s, p) && Possible(s, e)
  {
    match e
    case Imported(c) => Import(s, p, c).state
    case Read(id) => WithBlooms(s, Touched(s.indexes.blooms, id))
    case Collected(ids) => WithBlooms(s, Dropped(s.indexes.blooms, ids))
  }

  lemma TouchedStored(b: Blooms, id: nat, n: nat, bloom: Bloom)
    requires WellShaped(b) && Stored(b, n, bloom)
    ensures Stored(Touched(b, id), n, bloom)
  {
  }

  lemma DroppedStored(b: Blooms, ids: set<nat>, n: nat, bloom: Bloom)
    requires WellShaped(b) && Stored(b, n, bloom)
    ensures Stored(Dropped(b, ids), n, bloom)
  {
  }

  /** What happens to the blooms does not concern the tree, the head and the number index. */
  lemma BloomsApart(s: ChainState, p: Params, b: Blooms)
    requires Inv(s, p) && WellShaped(b)
    requires forall n, bloom :: Stored(s.indexes.blooms, n, bloom) ==> Stored(b, n, bloom)
    ensures Inv(WithBlooms(s, b), p)
  {
    hide Chain, Stored, WellNumbered, WellShaped, Agree;
    var s' := WithBlooms(s, b);
    assert Sane(s', p);
    SameScores(s, s', p);
    assert Canonical(s', p) == Canonical(s, p);
    hide NoBetter, DifficultiesAddUp;
  }

  lemma StepKeeps(s: ChainState, p: Params, e: Event)
    requires Inv(s, p) && Possible(s, e)
    ensures Inv(Step(s, p, e), p)
  {
    hide DifficultiesAddUp, HeadIsBest, NumbersIndexed, BloomsIndexed, WellNumbered, WellShaped, Agree, Import, Touched, Dropped, WithBlooms, Stored;
    match e
    case Imported(c) => ImportKeeps(s, p, c);
    case Read(id) =>
      forall n, bloom | Stored(s.indexes.blooms, n, bloom) ensures Stored(Touched(s.indexes.blooms, id), n, bloom) {
        TouchedStored(s.indexes.blooms, id, n, bloom);
      }
      BloomsApart(s, p, Touched(s.indexes.blooms, id));
    case Collected(ids) =>
      forall n, bloom | Stored(s.indexes.blooms, n, bloom) ensures Stored(Dropped(s.indexes.blooms, ids), n, bloom) {
        DroppedStored(s.indexes.blooms, ids, n, bloom);
      }
      BloomsApart(s, p, Dropped(s.indexes.blooms, ids));
  }

  predicate IsRun(s: ChainState, p: Params, events: seq<Event>)
    requires Inv(s, p)
    decreases |events|
  {
    events == [] || (Possible(s, events[0]) && (StepKeeps(s, p, events[0]); IsRun(Step(s, p, events[0]), p, events[1..])))
  }

  function After(s: ChainState, p: Params, events: seq<Event>): ChainState
    requires Inv(s, p) && IsRun(s, p, events)
    decreases |events|
  {
    if events == [] then s
    else
      StepKeeps(s, p, events[0]);
      After(Step(s, p, events[0]), p, events[1..])
  }

  lemma {:induction false} RunKeeps(s: ChainState, p: Params, events: seq<Event>)
    requires Inv(s, p) && IsRun(s, p, events)
    ensures Inv(After(s, p, events), p)
    decreases |events|
  {
    if events != [] {
      StepKeeps(s, p, events[0]);
      RunKeeps(Step(s, p, events[0]), p, events[1..]);
    }
  }

  predicate IsHistory(p: Params, genesis: Header, events: seq<Event>) {
    p.genesis != NO_HASH && genesis.number == 0 && (StartInv(p, genesis); IsRun(Start(p, genesis), p, events))
  }

  function Reached(p: Params, genesis: Header, events: seq<Event>): ChainState
    requires IsHistory(p, genesis, events)
  {
    After(Start(p, genesis), p, events)
  }

  /** The invariant holds after every run that starts with the genesis block alone. */
  lemma ReachedInv(p: Params, genesis: Header, events: seq<Event>)
    requires IsHistory(p, genesis, events)
    ensures Inv(Reached(p, genesis, events), p)
  {
    hide Start, Inv, IsRun, After;
    StartInv(p, genesis);
    RunKeeps(Start(p, genesis), p, events);
  }

  // ---------- what holds after every run ----------

  function DifficultySum(headers: map<Hash, Header>, blocks: seq<Hash>): nat
    requires forall h :: h in blocks ==> h in headers
  {
    if blocks == [] then 0
    else DifficultySum(headers, blocks[..|blocks| - 1]) + headers[blocks[|blocks| - 1]].difficulty
  }

  lemma {:induction false} PathSum(s: ChainState, p: Params, h: Hash)
    requires Sane(s, p) && DifficultiesAddUp(s, p) && h in s.tree
    ensures s.tree[h].totalDifficulty == DifficultySum(s.headers, Chain(s.tree, p.genesis, h))
    decreases s.tree[h].number
  {
    hide WellShaped, Agree;
    var c := Chain(s.tree, p.genesis, h);
    if h == p.genesis {
      assert c == [h] && c[..0] == [];
    } else {
      PathSum(s, p, s.tree[h].parent);
      assert c[..|c| - 1] == Chain(s.tree, p.genesis, s.tree[h].parent);
    }
  }

  /** After any run every stored total difficulty is the sum of the difficulties from the genesis block up. */
  lemma DifficultyInEveryRun(p: Params, genesis: Header, events: seq<Event>, h: Hash)
    requires IsHistory(p, genesis, events)
    requires h in Reached(p, genesis, events).tree
    ensures var s := Reached(p, genesis, events);
      Sane(s, p) && s.tree[h].totalDifficulty == DifficultySum(s.headers, Chain(s.tree, p.genesis, h))
  {
    hide Reached, IsHistory, Sane, DifficultiesAddUp, HeadIsBest, NumbersIndexed, BloomsIndexed, Chain;
    ReachedInv(p, genesis, events);
    PathSum(Reached(p, genesis, events), p, h);
  }

  /** After any run the head is the best stored block and the number index holds exactly its ancestors. */
  lemma HeadInEveryRun(p: Params, genesis: Header, events: seq<Event>)
    requires IsHistory(p, genesis, events)
    ensures var s := Reached(p, genesis, events);
      && Sane(s, p)
      && (forall h :: h in s.tree ==> NoBetter(s, p, h, s.head))
      && (forall n :: 1 <= n <= s.headNumber ==> n in s.indexes.numbers && s.indexes.numbers[n] == Canonical(s, p)[n])
  {
    hide Reached, IsHistory, Sane, Canonical;
    ReachedInv(p, genesis, events);
  }

  /** Both levels of the index lead a query to every canonical block whose bloom contains it. */
  lemma CanonicalIsHit(s: ChainState, p: Params, q: Bloom, n: nat)
    requires Inv(s, p) && 1 <= n <= s.headNumber && q <= s.headers[Canonical(s, p)[n]].bloom
    ensures Hit(s.indexes.blooms, q, n)
  {
    hide Slot, DifficultiesAddUp, HeadIsBest, NumbersIndexed, Chain, WellNumbered, Agree;
    assert Stored(s.indexes.blooms, n, s.headers[Canonical(s, p)[n]].bloom);
  }

  /** After any run a query misses no canonical block in its range, unless that ends in the last 255 numbers of 32 bits. */
  lemma QueryInEveryRun(p: Params, genesis: Header, events: seq<Event>, q: Bloom, earliest: nat, latest: nat, n: nat)
    requires IsHistory(p, genesis, events)
    ensures var s := Reached(p, genesis, events);
      && Sane(s, p)
      && (1 <= n <= s.headNumber && q <= s.headers[Canonical(s, p)[n]].bloom
          ==> && Hit(s.indexes.blooms, q, n)
              && (earliest <= n <= latest && latest + SPAN <= WORD32 ==> Scanned(n, earliest, latest)))
  {
    hide Reached, IsHistory, Chain, WellShaped, DifficultiesAddUp, HeadIsBest, NumbersIndexed, BloomsIndexed, Scanned, Hit, WellNumbered, Agree;
    ReachedInv(p, genesis, events);
    var s := Reached(p, genesis, events);
    if 1 <= n <= s.headNumber && q <= s.headers[Canonical(s, p)[n]].bloom {
      CanonicalIsHit(s, p, q, n);
      if earliest <= n <= latest && latest + SPAN <= WORD32 { ScannedExactly(n, earliest, latest); }
    }
  }
}
