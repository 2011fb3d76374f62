/**
  Runs of the block chain together with what it keeps beside the chain: the lists of children, and the memo in
  front of the index from numbers to hashes. Reads and garbage collection come at any time.
 */
module CacheRuns {
  import opened BlockTree
  import opened BloomIndex
  import opened ChainImport
  import opened ChildLists
  import ChainRuns
  import Uncles

  /** `numbers` is the memo; the index itself is part of the chain. */
  datatype Cached = Cached(chain: ChainState, lists: Lists, numbers: map<nat, Hash>)

  datatype Event =
    | Imports(candidate: Candidate)
    | BloomEvent(event: ChainRuns.Event)
    | ReadsDetails(hash: Hash)
    | ReadsNumber(number: nat)
    | Forgets(hashes: set<Hash>)

  // ---------- importing ----------

  /** A stored block numbered above the head is accepted again. */
  predicate Reimports(s: ChainState, p: Params, c: Candidate) {
    Judge(s, p, c).Accept? && c.hash in s.tree
  }

  /** Looking whether the block is known reads its details, if there are any; those of its parent are read next. */
  function ListsAfter(l: Lists, s: ChainState, p: Params, c: Candidate): Lists {
    var known := if c.hash == p.genesis then l else Noted(l, c.hash);
    match Judge(s, p, c)
    case Accept => Recorded(l, c.header.parent, c.hash)
    case AlreadyHaveBlock => known
    case UnknownParent => known
    case _ => Noted(known, c.header.parent)
  }

  /** When blocks are reverted their numbers leave the memo; nothing is entered for the new ones. */
  function NumbersAfter(memo: map<nat, Hash>, s: ChainState, p: Params, c: Candidate): map<nat, Hash>
    requires Sane(s, p) && Genuine(s, c)
  {
    if !Judge(s, p, c).Accept? || !Better(s, p, c) then memo
    else
      GrownSane(s, p, c);
      var k := Shared(Grown(s, c), p, c.hash);
      map n | n in memo && !(k <= n <= s.headNumber) :: memo[n]
  }

  lemma ImportTree(s: ChainState, p: Params, c: Candidate)
    requires Sane(s, p) && Genuine(s, c)
    ensures var t := Import(s, p, c).state;
      if Judge(s, p, c).Accept? then
        && t.tree == s.tree[c.hash := NewDetails(s, c)] && t.headers == s.headers[c.hash := c.header]
        && (if Better(s, p, c) then t.head == c.hash && t.headNumber == c.header.number else t.head == s.head && t.headNumber == s.headNumber)
      else t == s
  {
    hide WellNumbered, WellShaped, Agree, Better, Chain, SharedLength, Reindexed, Reverse;
    if Judge(s, p, c).Accept? && Better(s, p, c) { GrownSane(s, p, c); }
  }

  lemma AcceptedStorable(s: ChainState, p: Params, c: Candidate)
    requires Sane(s, p) && Genuine(s, c) && Judge(s, p, c).Accept?
    ensures Storable(s.tree, p.genesis, c.hash, NewDetails(s, c))
  {
    hide WellNumbered, WellShaped;
    if c.hash in s.tree { assert Agree(s.tree[c.hash], s.headers[c.hash], c.hash == p.genesis); }
  }

  lemma ImportSound(l: Lists, s: ChainState, p: Params, c: Candidate)
    requires Sane(s, p) && Genuine(s, c) && Sound(l, s.tree, p.genesis)
    ensures Sound(ListsAfter(l, s, p, c), Import(s, p, c).state.tree, p.genesis)
  {
    ImportTree(s, p, c);
    hide Sane, Sound, Better, Import, Noted, Recorded;
    if Judge(s, p, c).Accept? {
      AcceptedStorable(s, p, c);
      RecordedSound(l, s.tree, p.genesis, c.hash, NewDetails(s, c));
    } else {
      NotedSound(l, s.tree, p.genesis, c.hash);
      var known := if c.hash == p.genesis then l else Noted(l, c.hash);
      NotedSound(known, s.tree, p.genesis, c.header.parent);
    }
  }

  /** An import keeps the lists exact unless it stores a block again, and then its parent's list has it twice. */
  lemma ImportExactIff(l: Lists, s: ChainState, p: Params, c: Candidate)
    requires Sane(s, p) && Genuine(s, c) && Exact(l, s.tree, p.genesis)
    ensures var l', t := ListsAfter(l, s, p, c), Import(s, p, c).state.tree;
      if Reimports(s, p, c) then !Once(l', t) else Exact(l', t, p.genesis)
  {
    ImportTree(s, p, c);
    if Judge(s, p, c).Accept? {
      AcceptedStorable(s, p, c);
      hide Better, Import, Noted, Recorded, Listed, Distinct;
      if c.hash in s.tree {
        RecordedTwice(l, s.tree, p.genesis, c.hash, NewDetails(s, c));
        assert c.header.parent in Import(s, p, c).state.tree;
      } else {
        RecordedExact(l, s.tree, p.genesis, c.hash, NewDetails(s, c));
        hide Exact;
      }
    } else {
      hide Sane, Better, Import, Noted, Recorded, Exact;
      NotedExact(l, s.tree, p.genesis, c.hash);
      var known := if c.hash == p.genesis then l else Noted(l, c.hash);
      NotedExact(known, s.tree, p.genesis, c.header.parent);
    }
  }

  // ---------- numbers ----------

  function NumberHash(memo: map<nat, Hash>, s: ChainState, p: Params, n: nat): Hash {
    if n == 0 then p.genesis else if n in memo then memo[n] else if n in s.indexes.numbers then s.indexes.numbers[n] else NO_HASH
  }

  function NumberRead(memo: map<nat, Hash>, s: ChainState, n: nat): map<nat, Hash> {
    if n == 0 || n in memo || n !in s.indexes.numbers then memo else memo[n := s.indexes.numbers[n]]
  }

  /** Every number up to the head's leads to the block of the canonical chain. */
  predicate Right(memo: map<nat, Hash>, s: ChainState, p: Params)
    requires Sane(s, p)
  {
    forall n :: 0 <= n <= s.headNumber ==> NumberHash(memo, s, p, n) == Canonical(s, p)[n]
  }

  /** What the memo has for numbers above the head are the blocks that the new head has there. */
  predicate Fits(memo: map<nat, Hash>, s: ChainState, p: Params, c: Candidate)
    requires Sane(s, p)
  {
    Judge(s, p, c).Accept? && Better(s, p, c) ==>
      var now := Chain(s.tree, p.genesis, c.header.parent) + [c.hash];
      forall n :: n in memo && s.headNumber < n < |now| ==> memo[n] == now[n]
  }

  /** The memo agrees with the canonical chain. */
  predicate MemoRight(memo: map<nat, Hash>, s: ChainState, p: Params)
    requires Sane(s, p)
  {
    forall n :: n in memo && 1 <= n <= s.headNumber ==> memo[n] == Canonical(s, p)[n]
  }

  lemma RightIff(memo: map<nat, Hash>, s: ChainState, p: Params)
    requires Inv(s, p)
    ensures Right(memo, s, p) <==> MemoRight(memo, s, p)
  {
    hide Chain, WellNumbered, WellShaped, Agree, DifficultiesAddUp, HeadIsBest, BloomsIndexed;
    if Right(memo, s, p) {
      forall n | n in memo && 1 <= n <= s.headNumber ensures memo[n] == Canonical(s, p)[n] {
        assert NumberHash(memo, s, p, n) == memo[n];
      }
    }
  }

  lemma ReadRight(memo: map<nat, Hash>, s: ChainState, p: Params, n: nat)
    requires Inv(s, p)
    ensures Right(NumberRead(memo, s, n), s, p) <==> Right(memo, s, p)
    ensures forall i :: NumberHash(NumberRead(memo, s, n), s, p, i) == NumberHash(memo, s, p, i)
  {
    hide Chain, WellNumbered, WellShaped, Agree, DifficultiesAddUp, HeadIsBest, BloomsIndexed;
  }

  /** A new head leaves every number right exactly if what is memoised above the old head happens to fit. */
  lemma AdoptRightIff(memo: map<nat, Hash>, s: ChainState, p: Params, c: Candidate)
    requires Inv(s, p) && Genuine(s, c) && Judge(s, p, c).Accept? && Better(s, p, c) && MemoRight(memo, s, p)
    requires Sane(Import(s, p, c).state, p)
    ensures MemoRight(NumbersAfter(memo, s, p, c), Import(s, p, c).state, p) <==> Fits(memo, s, p, c)
  {
    hide WellNumbered, WellShaped, Agree, DifficultiesAddUp, HeadIsBest, NumbersIndexed, BloomsIndexed, Chain, SharedLength, Reindexed, Reverse, Better;
    if c.hash in s.tree { ReimportSame(s, p, c); }
    GrownChains(s, p, c);
    var g := Grown(s, c);
    AdoptSane(g, p, c.hash);
    ImportTree(s, p, c);
    var was, now := Canonical(s, p), Chain(s.tree, p.genesis, c.header.parent) + [c.hash];
    MemoSplit(memo, was, now, SharedLength(was, now), s.headNumber);
  }

  /** Below the shared blocks the memo is right, what was reverted is gone, and what is left lies above the old head. */
  lemma MemoSplit(memo: map<nat, Hash>, was: seq<Hash>, now: seq<Hash>, k: nat, head: nat)
    requires |was| == head + 1 && k <= |was| && k <= |now| && was[..k] == now[..k]
    requires forall n :: n in memo && 1 <= n <= head ==> memo[n] == was[n]
    ensures (forall n :: n in memo && !(k <= n <= head) && 1 <= n < |now| ==> memo[n] == now[n])
            <==> forall n :: n in memo && head < n < |now| ==> memo[n] == now[n]
  {
    forall n | n in memo && 1 <= n < k ensures memo[n] == now[n] { assert was[..k][n] == now[..k][n]; }
  }

  // ---------- runs ----------

  predicate Possible(s: ChainState, e: Event) {
    match e
    case Imports(c) => Genuine(s, c)
    case BloomEvent(event) => !event.Imported?
    case _ => true
  }

  function Step(x: Cached, p: Params, e: Event): Cached
    requires Sane(x.chain, p) && Possible(x.chain, e)
  {
    match e
    case Imports(c) => Cached(Import(x.chain, p, c).state, ListsAfter(x.lists, x.chain, p, c), NumbersAfter(x.numbers, x.chain, p, c))
    case BloomEvent(event) => x.(chain := ChainRuns.Step(x.chain, p, event))
    case ReadsDetails(h) => x.(lists := Noted(x.lists, h))
    case ReadsNumber(n) => x.(numbers := NumberRead(x.numbers, x.chain, n))
    case Forgets(hashes) => x.(lists := Forgotten(x.lists, hashes))
  }

  /** Of the chain, only imports change more than its blooms. */
  lemma StepChain(x: Cached, p: Params, e: Event)
    requires Inv(x.chain, p) && Possible(x.chain, e)
    ensures Inv(Step(x, p, e).chain, p)
    ensures !e.Imports? ==>
      var t := Step(x, p, e).chain;
      t.tree == x.chain.tree && t.head == x.chain.head && t.headNumber == x.chain.headNumber && t.indexes.numbers == x.chain.indexes.numbers
  {
    hide Inv, Import, WellNumbered, WellShaped, ListsAfter, NumbersAfter, Noted, NumberRead, Forgotten;
    match e
    case Imports(c) => ImportKeeps(x.chain, p, c);
    case BloomEvent(event) => ChainRuns.StepKeeps(x.chain, p, event);
    case _ =>
  }

  predicate IsRun(x: Cached, p: Params, events: seq<Event>)
    requires Inv(x.chain, p)
    decreases |events|
  {
    events == [] || (Possible(x.chain, events[0]) && (StepChain(x, p, events[0]); IsRun(Step(x, p, events[0]), p, events[1..])))
  }

  function Start(p: Params, genesis: Header): Cached {
    Cached(ChainImport.Start(p, genesis), ChildLists.Start(p.genesis), map[])
  }

  predicate IsHistory(p: Params, genesis: Header, events: seq<Event>) {
    p.genesis != NO_HASH && genesis.number == 0 && (StartInv(p, genesis); IsRun(Start(p, genesis), p, events))
  }

  function After(x: Cached, p: Params, events: seq<Event>): Cached
    requires Inv(x.chain, p) && IsRun(x, p, events)
    decreases |events|
  {
    if events == [] then x
    else
      StepChain(x, p, events[0]);
      After(Step(x, p, events[0]), p, events[1..])
  }

  /** A property of every state of a run. */
  ghost predicate Always(x: Cached, p: Params, events: seq<Event>, holds: Cached -> bool)
    requires Inv(x.chain, p) && IsRun(x, p, events)
    decreases |events|
  {
    holds(x) && (events != [] ==> (StepChain(x, p, events[0]); Always(Step(x, p, events[0]), p, events[1..], holds)))
  }

  /** A property of every step of a run. */
  ghost predicate EachStep(x: Cached, p: Params, events: seq<Event>, holds: (Cached, Event) -> bool)
    requires Inv(x.chain, p) && IsRun(x, p, events)
    decreases |events|
  {
    events == [] || (holds(x, events[0]) && (StepChain(x, p, events[0]); EachStep(Step(x, p, events[0]), p, events[1..], holds)))
  }

  // ---------- lists in every run ----------

  predicate ListsSound(x: Cached, p: Params) {
    Sound(x.lists, x.chain.tree, p.genesis)
  }

  predicate ListsOnce(x: Cached) {
    Once(x.lists, x.chain.tree)
  }

  /** The step stores a block that is stored already. */
  predicate StoresAgain(x: Cached, p: Params, e: Event) {
    e.Imports? && Reimports(x.chain, p, e.candidate)
  }

  lemma StepSound(x: Cached, p: Params, e: Event)
    requires Inv(x.chain, p) && Possible(x.chain, e) && ListsSound(x, p)
    ensures ListsSound(Step(x, p, e), p)
  {
    StepChain(x, p, e);
    hide Inv, Import, Sound, ListsAfter, NumbersAfter, Noted, NumberRead, Forgotten, Sane;
    match e
    case Imports(c) => ImportSound(x.lists, x.chain, p, c);
    case BloomEvent(event) =>
    case ReadsDetails(h) => NotedSound(x.lists, x.chain.tree, p.genesis, h);
    case ReadsNumber(n) =>
    case Forgets(hashes) => ForgottenSound(x.lists, x.chain.tree, p.genesis, hashes);
  }

  lemma StepExactIff(x: Cached, p: Params, e: Event)
    requires Inv(x.chain, p) && Possible(x.chain, e) && Exact(x.lists, x.chain.tree, p.genesis)
    ensures var y := Step(x, p, e); if StoresAgain(x, p, e) then !ListsOnce(y) else Exact(y.lists, y.chain.tree, p.genesis)
  {
    StepChain(x, p, e);
    hide Inv, Import, Exact, Once, ListsAfter, NumbersAfter, Noted, NumberRead, Forgotten, Sane, Reimports;
    match e
    case Imports(c) => ImportExactIff(x.lists, x.chain, p, c);
    case BloomEvent(event) =>
    case ReadsDetails(h) => NotedExact(x.lists, x.chain.tree, p.genesis, h);
    case ReadsNumber(n) =>
    case Forgets(hashes) => ForgottenExact(x.lists, x.chain.tree, p.genesis, hashes);
  }

  lemma {:induction false} OnceIff(x: Cached, p: Params, events: seq<Event>)
    requires Inv(x.chain, p) && IsRun(x, p, events) && Exact(x.lists, x.chain.tree, p.genesis)
    ensures Always(x, p, events, ListsOnce) <==> EachStep(x, p, events, (y, e) => !StoresAgain(y, p, e))
    decreases |events|
  {
    ExactOnce(x, p);
    if events != [] {
      StepChain(x, p, events[0]);
      StepExactIff(x, p, events[0]);
      hide Inv, Exact, Possible, Step, StoresAgain, ListsOnce;
      if !StoresAgain(x, p, events[0]) { OnceIff(Step(x, p, events[0]), p, events[1..]); }
    }
  }

  lemma ExactOnce(x: Cached, p: Params)
    requires Exact(x.lists, x.chain.tree, p.genesis)
    ensures ListsOnce(x)
  {
  }

  /** In every run, no child is ever listed twice exactly if no stored block is ever imported again. */
  lemma ListedOnceInEveryRunIff(p: Params, genesis: Header, events: seq<Event>)
    requires IsHistory(p, genesis, events)
    ensures Inv(Start(p, genesis).chain, p)
    ensures Always(Start(p, genesis), p, events, ListsOnce)
            <==> EachStep(Start(p, genesis), p, events, (y, e) => !StoresAgain(y, p, e))
  {
    hide Inv, Exact, IsRun, Always, EachStep;
    StartInv(p, genesis);
    StartExact(Start(p, genesis).chain.tree, p.genesis);
    OnceIff(Start(p, genesis), p, events);
  }

  lemma {:induction false} AlwaysSound(x: Cached, p: Params, events: seq<Event>)
    requires Inv(x.chain, p) && IsRun(x, p, events) && ListsSound(x, p)
    ensures Always(x, p, events, y => ListsSound(y, p))
    decreases |events|
  {
    if events != [] {
      StepChain(x, p, events[0]);
      StepSound(x, p, events[0]);
      hide Inv, ListsSound, Possible, Step;
      AlwaysSound(Step(x, p, events[0]), p, events[1..]);
    }
  }

  /** In every run all that is listed for a block are stored children of it. */
  lemma SoundInEveryRun(p: Params, genesis: Header, events: seq<Event>)
    requires IsHistory(p, genesis, events)
    ensures Inv(Start(p, genesis).chain, p) && Always(Start(p, genesis), p, events, y => ListsSound(y, p))
  {
    hide Inv, IsRun, Always;
    StartInv(p, genesis);
    StartExact(Start(p, genesis).chain.tree, p.genesis);
    AlwaysSound(Start(p, genesis), p, events);
  }

  // ---------- children lost ----------

  ghost predicate ListsFull(x: Cached, p: Params) {
    Sound(x.lists, x.chain.tree, p.genesis) && Full(x.lists, x.chain.tree, p.genesis)
  }

  /** Details that are dropped from the memo have all their children in the database. */
  ghost predicate KeepsChildren(x: Cached, p: Params, e: Event) {
    e.Forgets? ==>
      forall h, u :: h in e.hashes && h in x.lists.memo && ChildOf(x.chain.tree, p.genesis, h, u) ==> h in x.lists.db && u in x.lists.db[h]
  }

  lemma ImportFull(l: Lists, s: ChainState, p: Params, c: Candidate)
    requires Sane(s, p) && Genuine(s, c) && Sound(l, s.tree, p.genesis) && Full(l, s.tree, p.genesis)
    ensures Full(ListsAfter(l, s, p, c), Import(s, p, c).state.tree, p.genesis)
  {
    ImportTree(s, p, c);
    if Judge(s, p, c).Accept? {
      AcceptedStorable(s, p, c);
      RecordedFull(l, s.tree, p.genesis, c.hash, NewDetails(s, c));
      hide Better, Import, Noted, Recorded, Listed, Full;
    } else {
      hide Sane, Better, Import, Noted, Recorded, Sound, Listed;
      NotedSound(l, s.tree, p.genesis, c.hash);
      var known := if c.hash == p.genesis then l else Noted(l, c.hash);
      NotedSound(known, s.tree, p.genesis, c.header.parent);
    }
  }

  lemma StepFullIff(x: Cached, p: Params, e: Event)
    requires Inv(x.chain, p) && Possible(x.chain, e) && ListsFull(x, p)
    ensures ListsFull(Step(x, p, e), p) <==> KeepsChildren(x, p, e)
  {
    StepChain(x, p, e);
    StepSound(x, p, e);
    match e
    case Imports(c) =>
      hide Inv, Import, Sound, Full, ListsAfter, NumbersAfter, ChildOf;
      ImportFull(x.lists, x.chain, p, c);
    case BloomEvent(event) => hide Inv, Sound, Full, ChildOf, Listed;
    case ReadsDetails(h) =>
      NotedSound(x.lists, x.chain.tree, p.genesis, h);
      hide Inv, Sound, Noted, Listed, ChildOf;
    case ReadsNumber(n) => hide Inv, Sound, Full, ChildOf, Listed, NumberRead;
    case Forgets(hashes) =>
      ForgottenFullIff(x.lists, x.chain.tree, p.genesis, hashes);
      hide Inv, Full, ChildOf, Listed, Children, Forgotten;
  }

  lemma {:induction false} FullRunIff(x: Cached, p: Params, events: seq<Event>)
    requires Inv(x.chain, p) && IsRun(x, p, events) && ListsFull(x, p)
    ensures Always(x, p, events, y => ListsFull(y, p)) <==> EachStep(x, p, events, (y, e) => KeepsChildren(y, p, e))
    decreases |events|
  {
    if events != [] {
      StepChain(x, p, events[0]);
      StepFullIff(x, p, events[0]);
      hide Inv, ListsFull, Possible, Step, KeepsChildren;
      if KeepsChildren(x, p, events[0]) { FullRunIff(Step(x, p, events[0]), p, events[1..]); }
    }
  }

  /** The blocks stored so far, in order. */
  function Logged(log: seq<Stored>, x: Cached, p: Params, e: Event): seq<Stored> {
    if e.Imports? && Judge(x.chain, p, e.candidate).Accept? then
      log + [Stored(e.candidate.hash, e.candidate.header.parent, e.candidate.hash in x.chain.tree)]
    else log
  }

  /** No block whose details are dropped was stored again after one of its children, with no child of it stored since. */
  ghost predicate DropsNoErased(log: seq<Stored>, x: Cached, p: Params, e: Event) {
    e.Forgets? ==> forall h, u :: h in e.hashes && ChildOf(x.chain.tree, p.genesis, h, u) ==> !ErasedSince(log, h, u)
  }

  /** So it is at every step of a run, the log being kept along. */
  ghost predicate NeverDropsErased(log: seq<Stored>, x: Cached, p: Params, events: seq<Event>)
    requires Inv(x.chain, p) && IsRun(x, p, events)
    decreases |events|
  {
    events == []
    || (DropsNoErased(log, x, p, events[0])
        && (StepChain(x, p, events[0]); NeverDropsErased(Logged(log, x, p, events[0]), Step(x, p, events[0]), p, events[1..])))
  }

  ghost predicate LogKept(log: seq<Stored>, x: Cached, p: Params) {
    LogAccounts(log, x.lists, x.chain.tree, p.genesis)
  }

  lemma InvNumbered(s: ChainState, p: Params)
    requires Inv(s, p)
    ensures WellNumbered(s.tree, p.genesis)
  {
  }

  lemma ParentInTree(s: ChainState, p: Params, h: Hash, u: Hash)
    requires Inv(s, p) && ChildOf(s.tree, p.genesis, h, u)
    ensures h in s.tree
  {
  }

  /** Dropping details loses a child exactly if one has been erased from the database. */
  lemma DropsIff(log: seq<Stored>, x: Cached, p: Params, e: Event)
    requires Inv(x.chain, p) && ListsFull(x, p) && LogKept(log, x, p)
    ensures KeepsChildren(x, p, e) <==> DropsNoErased(log, x, p, e)
  {
    if e.Forgets? {
      forall h, u | h in e.hashes && ChildOf(x.chain.tree, p.genesis, h, u)
        ensures h in x.chain.tree && h in x.lists.db && (u !in x.lists.db[h] <==> ErasedSince(log, h, u))
        ensures u !in x.lists.db[h] ==> h in x.lists.memo
      {
        ParentInTree(x.chain, p, h, u);
        hide Inv, ErasedSince, WasStored;
        assert ChildAccounted(log, x.lists, h, u);
        assert u in Listed(x.lists, h);
      }
      hide Inv, ListsFull, ErasedSince, ChildOf, LogKept;
    }
  }

  lemma StepAccounts(log: seq<Stored>, x: Cached, p: Params, e: Event)
    requires Inv(x.chain, p) && Possible(x.chain, e) && ListsFull(x, p) && LogKept(log, x, p)
    ensures LogKept(Logged(log, x, p, e), Step(x, p, e), p)
  {
    StepChain(x, p, e);
    match e
    case Imports(c) => ImportAccounts(log, x, p, c);
    case _ =>
      hide Inv, ListsFull, LogAccounts;
      SameDbAccounts(log, x.lists, Step(x, p, e).lists, x.chain.tree, p.genesis);
  }

  lemma ImportAccounts(log: seq<Stored>, x: Cached, p: Params, c: Candidate)
    requires Inv(x.chain, p) && Genuine(x.chain, c) && ListsFull(x, p) && LogKept(log, x, p)
    ensures LogKept(Logged(log, x, p, Imports(c)), Step(x, p, Imports(c)), p)
  {
    hide Import, DifficultiesAddUp, HeadIsBest, NumbersIndexed, BloomsIndexed, WellShaped, Agree, Better, LogAccounts, Recorded, Sound, Full,
      WellNumbered, NumbersAfter;
    var s := x.chain;
    ImportTree(s, p, c);
    if Judge(s, p, c).Accept? {
      AcceptedStorable(s, p, c);
      hide Sane;
      InvNumbered(s, p);
      RecordedAccounts(log, x.lists, s.tree, p.genesis, c.hash, NewDetails(s, c));
    } else {
      hide Sane, Judge;
      SameDbAccounts(log, x.lists, ListsAfter(x.lists, s, p, c), s.tree, p.genesis);
    }
  }

  lemma {:induction false} ErasedRunIff(log: seq<Stored>, x: Cached, p: Params, events: seq<Event>)
    requires Inv(x.chain, p) && IsRun(x, p, events) && ListsFull(x, p) && LogKept(log, x, p)
    ensures Always(x, p, events, y => ListsFull(y, p)) <==> NeverDropsErased(log, x, p, events)
    decreases |events|
  {
    if events != [] {
      StepChain(x, p, events[0]);
      StepFullIff(x, p, events[0]);
      DropsIff(log, x, p, events[0]);
      StepAccounts(log, x, p, events[0]);
      hide Inv, ListsFull, Possible, Step, KeepsChildren, DropsNoErased, LogKept, Logged;
      if KeepsChildren(x, p, events[0]) { ErasedRunIff(Logged(log, x, p, events[0]), Step(x, p, events[0]), p, events[1..]); }
    }
  }

  /**
    In every run no child ever goes missing from its parent's list exactly if no block's details are dropped that was
    stored again after one of its children, with no child of it stored since; that is, if all details dropped are
    complete in the database.
   */
  lemma FullInEveryRunIff(p: Params, genesis: Header, events: seq<Event>)
    requires IsHistory(p, genesis, events)
    ensures Inv(Start(p, genesis).chain, p)
    ensures Always(Start(p, genesis), p, events, y => ListsFull(y, p)) <==> NeverDropsErased([], Start(p, genesis), p, events)
    ensures Always(Start(p, genesis), p, events, y => ListsFull(y, p))
            <==> EachStep(Start(p, genesis), p, events, (y, e) => KeepsChildren(y, p, e))
  {
    hide Inv, IsRun, Always, EachStep, KeepsChildren, NeverDropsErased;
    StartInv(p, genesis);
    StartExact(Start(p, genesis).chain.tree, p.genesis);
    FullRunIff(Start(p, genesis), p, events);
    ErasedRunIff([], Start(p, genesis), p, events);
  }

  // ---------- numbers in every run ----------

  predicate NumbersRight(x: Cached, p: Params) {
    Sane(x.chain, p) && Right(x.numbers, x.chain, p)
  }

  predicate FitsStep(x: Cached, p: Params, e: Event) {
    e.Imports? && Sane(x.chain, p) ==> Fits(x.numbers, x.chain, p, e.candidate)
  }

  lemma ImportRightIff(x: Cached, p: Params, c: Candidate)
    requires Inv(x.chain, p) && Genuine(x.chain, c) && NumbersRight(x, p)
    ensures NumbersRight(Step(x, p, Imports(c)), p) <==> Fits(x.numbers, x.chain, p, c)
  {
    hide WellNumbered, WellShaped, Agree, DifficultiesAddUp, HeadIsBest, NumbersIndexed, BloomsIndexed, Chain, SharedLength, Reindexed, Reverse, Better,
      Right, ListsAfter;
    var s, t := x.chain, Import(x.chain, p, c).state;
    ImportKeeps(s, p, c);
    RightIff(x.numbers, s, p);
    RightIff(NumbersAfter(x.numbers, s, p, c), t, p);
    if Judge(s, p, c).Accept? {
      if Better(s, p, c) {
        AdoptRightIff(x.numbers, s, p, c);
      } else if c.hash in s.tree {
        ReimportSame(s, p, c);
      } else {
        GrownChains(s, p, c);
      }
    }
  }

  lemma StepRightIff(x: Cached, p: Params, e: Event)
    requires Inv(x.chain, p) && Possible(x.chain, e) && NumbersRight(x, p)
    ensures NumbersRight(Step(x, p, e), p) <==> FitsStep(x, p, e)
  {
    StepChain(x, p, e);
    if e.Imports? {
      hide Step, Inv, Right, Fits, Sane;
      ImportRightIff(x, p, e.candidate);
      InvSane(x.chain, p);
    } else {
      SameNumbers(x, p, e);
    }
  }

  lemma InvSane(s: ChainState, p: Params)
    requires Inv(s, p)
    ensures Sane(s, p)
  {
  }

  lemma SameNumbers(x: Cached, p: Params, e: Event)
    requires Inv(x.chain, p) && Possible(x.chain, e) && !e.Imports? && NumbersRight(x, p)
    ensures NumbersRight(Step(x, p, e), p)
  {
    StepChain(x, p, e);
    var y := Step(x, p, e);
    if e.ReadsNumber? { ReadRight(x.numbers, x.chain, p, e.number); }
    hide Chain, WellNumbered, WellShaped, Agree, DifficultiesAddUp, HeadIsBest, NumbersIndexed, BloomsIndexed, NumberRead, Noted, Forgotten;
    assert Canonical(y.chain, p) == Canonical(x.chain, p);
  }

  lemma {:induction false} RightRunIff(x: Cached, p: Params, events: seq<Event>)
    requires Inv(x.chain, p) && IsRun(x, p, events) && NumbersRight(x, p)
    ensures Always(x, p, events, y => NumbersRight(y, p)) <==> EachStep(x, p, events, (y, e) => FitsStep(y, p, e))
    decreases |events|
  {
    if events != [] {
      StepChain(x, p, events[0]);
      StepRightIff(x, p, events[0]);
      hide Inv, NumbersRight, Possible, Step, FitsStep;
      if FitsStep(x, p, events[0]) { RightRunIff(Step(x, p, events[0]), p, events[1..]); }
    }
  }

  /** In every run numbers always lead to the canonical blocks exactly if at each new head the memo has nothing else above the old one. */
  lemma NumbersInEveryRunIff(p: Params, genesis: Header, events: seq<Event>)
    requires IsHistory(p, genesis, events)
    ensures Inv(Start(p, genesis).chain, p)
    ensures Always(Start(p, genesis), p, events, y => NumbersRight(y, p))
            <==> EachStep(Start(p, genesis), p, events, (y, e) => FitsStep(y, p, e))
  {
    hide Inv, IsRun, Always, EachStep, FitsStep;
    StartInv(p, genesis);
    StartRight(p, genesis);
    RightRunIff(Start(p, genesis), p, events);
  }

  lemma StartRight(p: Params, genesis: Header)
    requires p.genesis != NO_HASH && genesis.number == 0
    ensures NumbersRight(Start(p, genesis), p)
  {
  }

  // ---------- what uncles are picked from ----------

  function ChildrenOf(x: Cached): map<Hash, seq<Hash>> {
    map h | h in x.chain.tree :: Listed(x.lists, h)
  }

  /** Sound lists are what picking uncles relies on, and pick no block twice if they list none twice. */
  lemma ListsServe(x: Cached, p: Params, f: Uncles.Family)
    requires ListsSound(x, p) && f.tree == x.chain.tree && f.genesis == p.genesis
    ensures Uncles.ChildrenOk(f, ChildrenOf(x))
    ensures Uncles.ListedOnce(f, ChildrenOf(x)) <==> ListsOnce(x)
  {
    forall h | h in f.tree ensures forall u :: u in ChildrenOf(x)[h] ==> Uncles.IsChild(f, h, u) {
      ListedAreChildren(x.lists, x.chain.tree, p.genesis, h);
    }
    hide Listed, Distinct, Sound;
    if Uncles.ListedOnce(f, ChildrenOf(x)) {
      forall h | h in x.chain.tree ensures Distinct(Listed(x.lists, h)) { assert Distinct(ChildrenOf(x)[h]); }
    }
  }

  /** With no child lost, the list of each ancestor has its successor, as is asserted when uncles are picked. */
  lemma EldersHaveChildren(x: Cached, p: Params, f: Uncles.Family, cur: Uncles.Current, d: nat)
    requires ListsFull(x, p) && f.tree == x.chain.tree && f.genesis == p.genesis && WellNumbered(f.tree, f.genesis)
    requires cur.parent in f.tree && 1 <= d <= f.tree[cur.parent].number
    ensures Uncles.Elder(f, cur, d - 1) in ChildrenOf(x)[Uncles.Elder(f, cur, d)]
  {
    hide WellNumbered, Listed, Sound;
    Uncles.ElderStep(f, cur, d - 1);
    assert ChildOf(x.chain.tree, p.genesis, Uncles.Elder(f, cur, d), Uncles.Elder(f, cur, d - 1));
  }
}
