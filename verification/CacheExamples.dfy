/** Runs of the block chain after which a child is listed twice, a child is lost, or a number leads to the wrong block. */
module CacheExamples {
  import opened BlockTree
  import opened BloomIndex
  import opened ChainImport
  import opened ChildLists
  import opened CacheRuns
  import Uncles

  const P := Params(1, false)
  const G := Header(NO_HASH, 0, 1, 0, {})

  /** A run leads from one state to another. */
  ghost predicate Leads(x: Cached, events: seq<Event>, y: Cached) {
    Inv(x.chain, P) && IsRun(x, P, events) && After(x, P, events) == y
  }

  ghost predicate Reachable(y: Cached) {
    exists events :: Leads(CacheRuns.Start(P, G), events, y)
  }

  lemma LeadsTail(x: Cached, events: seq<Event>, y: Cached)
    requires Leads(x, events, y) && events != []
    ensures Possible(x.chain, events[0]) && Sane(x.chain, P) && Leads(Step(x, P, events[0]), events[1..], y)
  {
    hide Possible, Step, Inv;
    InvSane(x.chain, P);
    StepChain(x, P, events[0]);
  }

  lemma LeadsCons(x: Cached, e: Event, events: seq<Event>, y: Cached)
    requires Inv(x.chain, P) && Possible(x.chain, e) && Leads(Step(x, P, e), events, y)
    ensures Leads(x, [e] + events, y)
  {
    hide Possible, Step, Inv;
    InvSane(x.chain, P);
    StepChain(x, P, e);
    assert ([e] + events)[1..] == events;
  }

  lemma LeadsOne(x: Cached, e: Event)
    requires Inv(x.chain, P) && Possible(x.chain, e)
    ensures Sane(x.chain, P) && Leads(x, [e], Step(x, P, e))
  {
    hide Possible, Step, Inv, Leads;
    InvSane(x.chain, P);
    StepChain(x, P, e);
    LeadsNowhere(Step(x, P, e), Step(x, P, e));
    LeadsCons(x, e, [], Step(x, P, e));
    assert [e] + [] == [e];
  }

  lemma LeadsNowhere(x: Cached, y: Cached)
    requires Inv(x.chain, P)
    ensures Leads(x, [], y) <==> x == y
  {
    hide Inv;
  }

  lemma {:induction false} LeadsOn(x: Cached, events: seq<Event>, y: Cached, e: Event)
    requires Leads(x, events, y) && Inv(x.chain, P) && Possible(y.chain, e)
    ensures Inv(y.chain, P) && Sane(y.chain, P) && Leads(x, events + [e], Step(y, P, e))
    decreases |events|
  {
    hide Possible, Step, Leads, Inv, Sane;
    if events == [] {
      LeadsNowhere(x, y);
      LeadsOne(x, e);
      assert events + [e] == [e];
    } else {
      LeadsTail(x, events, y);
      StepChain(x, P, events[0]);
      LeadsOn(Step(x, P, events[0]), events[1..], y, e);
      LeadsCons(x, events[0], events[1..] + [e], Step(y, P, e));
      assert [events[0]] + (events[1..] + [e]) == events + [e];
    }
  }

  lemma ReachNext(y: Cached, e: Event)
    requires Reachable(y) && Possible(y.chain, e)
    ensures Inv(y.chain, P) && Reachable(Step(y, P, e))
  {
    hide Leads, Inv, Possible, Step;
    var events :| Leads(CacheRuns.Start(P, G), events, y);
    StartInv(P, G);
    LeadsOn(CacheRuns.Start(P, G), events, y, e);
  }

  /** A valid block that uses no gas. */
  function Block(hash: Hash, parent: Hash, number: nat, difficulty: nat): Candidate {
    Candidate(hash, Header(parent, number, difficulty, 0, {}), false, true)
  }

  /** Reached, with sound lists. */
  ghost predicate At(x: Cached) {
    Reachable(x) && Inv(x.chain, P) && ListsSound(x, P)
  }

  lemma NewAccepted(s: ChainState, c: Candidate)
    requires Sane(s, P) && c.hash != NO_HASH && c.hash !in s.tree && c.header.parent in s.tree
    requires c == Block(c.hash, c.header.parent, s.tree[c.header.parent].number + 1, c.header.difficulty) && c.header.number < WORD32
    ensures Genuine(s, c) && Judge(s, P, c).Accept?
  {
  }

  /** What importing a new block does. */
  lemma Stores(x: Cached, c: Candidate) returns (y: Cached)
    requires At(x) && c.hash != NO_HASH && c.hash !in x.chain.tree && c.header.parent in x.chain.tree
    requires c == Block(c.hash, c.header.parent, x.chain.tree[c.header.parent].number + 1, c.header.difficulty) && c.header.number < WORD32
    ensures At(y) && Possible(x.chain, Imports(c)) && y == Step(x, P, Imports(c))
    ensures var s, t, d := x.chain, y.chain, NewDetails(x.chain, c);
      && t.tree == s.tree[c.hash := d] && t.headers == s.headers[c.hash := c.header]
      && (if d.totalDifficulty > s.tree[s.head].totalDifficulty then t.head == c.hash && t.headNumber == c.header.number
          else t.head == s.head && t.headNumber == s.headNumber)
    ensures Listed(y.lists, c.header.parent) == Listed(x.lists, c.header.parent) + [c.hash] && Listed(y.lists, c.hash) == []
    ensures x.numbers == map[] ==> y.numbers == map[]
    ensures forall h :: h in x.chain.tree && h != c.header.parent ==> Listed(y.lists, h) == Listed(x.lists, h)
  {
    hide Reachable, Recorded, Listed, Noted, DifficultiesAddUp, HeadIsBest, NumbersIndexed, BloomsIndexed, WellNumbered, WellShaped, Agree;
    var s := x.chain;
    NewAccepted(s, c);
    y := Step(x, P, Imports(c));
    hide Judge;
    ImportTree(s, P, c);
    AcceptedStorable(s, P, c);
    StepChain(x, P, Imports(c));
    StepSound(x, P, Imports(c));
    ReachNext(x, Imports(c));
    forall h | h in s.tree || h == c.hash
      ensures Listed(Recorded(x.lists, c.header.parent, c.hash), h)
              == if h == c.header.parent then Listed(x.lists, h) + [c.hash] else if h in s.tree then Listed(x.lists, h) else []
    {
      RecordedAt(x.lists, s.tree, P.genesis, c.hash, NewDetails(s, c), h);
    }
    hide Import, Sound;
  }

  /** What importing a stored block above the head again does. */
  lemma StoresTwice(x: Cached, c: Candidate) returns (y: Cached)
    requires At(x) && c.hash in x.chain.tree && c.hash != P.genesis && c.hash != NO_HASH && c == Block(c.hash, c.header.parent, c.header.number, c.header.difficulty)
    requires x.chain.headers.Keys == x.chain.tree.Keys ==> x.chain.headers[c.hash] == c.header
    requires x.chain.tree[c.hash].number > x.chain.headNumber
    ensures At(y) && Reimports(x.chain, P, c) && y.chain == x.chain && c.header.parent in x.chain.tree
    ensures Listed(y.lists, c.header.parent) == Listed(x.lists, c.header.parent) + [c.hash]
    ensures forall h :: h in x.chain.tree && h != c.header.parent ==> Listed(y.lists, h) == Listed(x.lists, h)
    ensures c.hash in y.lists.memo && c.hash in y.lists.db && y.lists.db[c.hash] == []
  {
    hide Reachable, Recorded, Listed, Noted, DifficultiesAddUp, HeadIsBest, NumbersIndexed, BloomsIndexed, WellShaped;
    var s := x.chain;
    AcceptedAgain(s, c);
    y := Step(x, P, Imports(c));
    hide Judge, WellNumbered, Agree;
    ReimportSame(s, P, c);
    AcceptedStorable(s, P, c);
    StepSound(x, P, Imports(c));
    ReachNext(x, Imports(c));
    RecordedAgain(x.lists, s.tree, P.genesis, c.hash, NewDetails(s, c));
    forall h | h in s.tree
      ensures Listed(Recorded(x.lists, c.header.parent, c.hash), h)
              == if h == c.header.parent then Listed(x.lists, h) + [c.hash] else Listed(x.lists, h)
    {
      RecordedAt(x.lists, s.tree, P.genesis, c.hash, NewDetails(s, c), h);
    }
    hide Sound;
  }

  lemma AcceptedAgain(s: ChainState, c: Candidate)
    requires Sane(s, P) && c.hash in s.tree && c.hash != P.genesis && c.hash != NO_HASH && c == Block(c.hash, c.header.parent, c.header.number, c.header.difficulty)
    requires s.headers[c.hash] == c.header && s.tree[c.hash].number > s.headNumber
    ensures Genuine(s, c) && Judge(s, P, c).Accept?
  {
    assert Agree(s.tree[c.hash], s.headers[c.hash], c.hash == P.genesis);
  }

  lemma Begins()
    ensures At(CacheRuns.Start(P, G))
  {
    var x := CacheRuns.Start(P, G);
    StartInv(P, G);
    StartExact(x.chain.tree, P.genesis);
    hide Inv;
    LeadsNowhere(x, x);
  }

  // ---------- a child listed twice ----------

  /** Block 11 is the head; 12 and its child 22, which is above the head, have less difficulty. */
  lemma ForkStored() returns (x: Cached)
    ensures At(x) && x.chain.tree == map[1 := Details(0, 1, NO_HASH), 11 := Details(1, 11, 1), 12 := Details(1, 2, 1), 22 := Details(2, 3, 12)]
    ensures x.chain.head == 11 && x.chain.headNumber == 1
    ensures 22 in x.chain.headers && x.chain.headers[22] == Block(22, 12, 2, 1).header
    ensures Listed(x.lists, 12) == [22] && Listed(x.lists, 22) == []
  {
    hide At, Step, Possible, Listed;
    Begins();
    x := CacheRuns.Start(P, G);
    StartListed();
    x := Stores(x, Block(11, 1, 1, 10));
    x := Stores(x, Block(12, 1, 1, 1));
    x := Stores(x, Block(22, 12, 2, 1));
  }

  lemma StartListed()
    ensures Listed(CacheRuns.Start(P, G).lists, 1) == []
  {
  }

  /** In a list of the reached state a child comes twice, before the block that the next one is built on. */
  lemma TwiceListed() returns (x: Cached)
    ensures At(x) && x.chain.tree == map[1 := Details(0, 1, NO_HASH), 11 := Details(1, 11, 1), 12 := Details(1, 2, 1), 22 := Details(2, 3, 12), 23 := Details(2, 102, 12)]
    ensures x.chain.head == 23 && Listed(x.lists, 12) == [22, 22, 23] && !ListsOnce(x)
  {
    hide At, Step, Possible, Listed;
    x := ForkStored();
    x := StoresTwice(x, Block(22, 12, 2, 1));
    x := Stores(x, Block(23, 12, 2, 100));
    var l := [22, 22, 23];
    assert l[0] == l[1] && !Distinct(l);
    assert 12 in x.chain.tree;
  }

  /** The stored blocks as a family in which no block has cited any. */
  function FamilyOf(s: ChainState): Uncles.Family {
    Uncles.Family(s.tree, P.genesis, map h | h in s.tree :: [], s.headNumber)
  }

  function HeadersOf(s: ChainState): Uncles.Headers {
    h => if h in s.headers then Uncles.Header(s.headers[h].parent, s.headers[h].number, 0, true) else Uncles.Header(NO_HASH, 0, 0, false)
  }

  lemma FamilyConsistent(s: ChainState)
    requires Sane(s, P)
    ensures Uncles.Consistent(FamilyOf(s), HeadersOf(s))
  {
    hide WellNumbered, WellShaped;
    forall h | h in s.tree ensures HeadersOf(s)(h).number == s.tree[h].number && (h != P.genesis ==> HeadersOf(s)(h).parent == s.tree[h].parent) {
      assert Agree(s.tree[h], s.headers[h], h == P.genesis);
    }
  }

  /** For a block on top of the head the same uncle is picked twice, so that it may not be cited. */
  ghost predicate PicksSame(x: Cached, hash: Hash, u: Hash) {
    && Sane(x.chain, P)
    && var f, hs, cur := FamilyOf(x.chain), HeadersOf(x.chain), Uncles.Current(hash, x.chain.head);
       && Uncles.Consistent(f, hs) && Uncles.ChildrenOk(f, ChildrenOf(x)) && Uncles.FirstTwo(Uncles.Candidates(f, ChildrenOf(x), cur, 1)) == [u, u]
       && Uncles.PicksTwice(f, ChildrenOf(x), cur, 1) && !Uncles.MayCite(f, hs, cur, [u, u])
  }

  lemma PicksSameUncle(x: Cached)
    requires Sane(x.chain, P) && ListsSound(x, P) && 99 !in x.chain.tree && x.chain.head == 23 && 12 in x.chain.tree
    requires x.chain.tree[23] == Details(2, 102, 12) && x.chain.tree[12] == Details(1, 2, 1) && Listed(x.lists, 12) == [22, 22, 23]
    ensures PicksSame(x, 99, 22)
  {
    var f, hs, cur := FamilyOf(x.chain), HeadersOf(x.chain), Uncles.Current(99, x.chain.head);
    assert cur.hash !in f.tree && cur.parent == 23;
    hide ListsSound, WellNumbered, WellShaped, Agree, Uncles.Kin, Uncles.PicksTwice, Uncles.MayCite, Uncles.Candidates, HeadersOf, Listed;
    FamilyConsistent(x.chain);
    ListsServe(x, P, f);
    hide Uncles.Consistent, Uncles.ChildrenOk, Sane;
    ConsistentMeans(f, hs);
    TwoCandidates(f, ChildrenOf(x), cur);
    Uncles.CandidatesTwiceIff(f, hs, ChildrenOf(x), cur, 1);
    Uncles.PicksPassIff(f, hs, ChildrenOf(x), cur);
  }

  lemma ConsistentMeans(f: Uncles.Family, hs: Uncles.Headers)
    requires Uncles.Consistent(f, hs)
    ensures WellNumbered(f.tree, f.genesis) && f.uncles.Keys == f.tree.Keys
  {
  }

  /** A run after which the same uncle is picked twice. */
  lemma PickedTwice()
    ensures exists x :: Reachable(x) && PicksSame(x, 99, 22)
  {
    var x := TwiceListed();
    hide Reachable, Inv, ListsSound, PicksSame, Sane, Listed;
    InvSane(x.chain, P);
    PicksSameUncle(x);
  }

  lemma TwoCandidates(f: Uncles.Family, children: map<Hash, seq<Hash>>, cur: Uncles.Current)
    requires WellNumbered(f.tree, f.genesis) && f.uncles.Keys == f.tree.Keys && Uncles.ChildrenOk(f, children)
    requires f.genesis == 1 && cur.parent == 23 && 23 in f.tree && f.tree[23] == Details(2, 102, 12) && 12 in f.tree && f.tree[12] == Details(1, 2, 1)
    requires f.uncles[23] == [] == f.uncles[12] && children[12] == [22, 22, 23]
    ensures Uncles.Candidates(f, children, cur, 1) == [22, 22]
  {
    hide WellNumbered, Uncles.ChildrenOk;
    Uncles.ParentIsElder(f, cur);
    assert Uncles.Kin(f, 1, 4) == {1};
    assert Uncles.Kin(f, 12, 5) == {12, 1};
    assert Uncles.Kin(f, 23, 6) == {23, 12, 1};
    var kin := Uncles.Kin(f, 23, 6);
    hide Uncles.Kin, Uncles.Elder;
    assert [22, 22, 23][1..] == [22, 23] && [22, 23][1..] == [23] && [23][1..] == [];
    assert Uncles.Eligible([23], kin) == [];
    assert Uncles.Eligible([22, 23], kin) == [22];
    assert Uncles.Eligible([22, 22, 23], kin) == [22, 22];
    Uncles.CandidatesStep(f, children, cur, 1);
    Uncles.CandidatesStep(f, children, cur, 2);
  }

  // ---------- a lost child ----------

  lemma Forgot(x: Cached, h: Hash) returns (y: Cached)
    requires At(x) && h in x.lists.db
    ensures At(y) && y.chain == x.chain && Listed(y.lists, h) == x.lists.db[h]
    ensures forall g :: g != h ==> Listed(y.lists, g) == Listed(x.lists, g)
  {
    hide Reachable, Inv, ListsSound;
    InvSane(x.chain, P);
    var e := Forgets({h});
    ReachNext(x, e);
    StepSound(x, P, e);
    y := Step(x, P, e);
  }

  /** Block 22 has child 33 and is on the chain of the head, but has no child in its list. */
  lemma ChildForgotten() returns (x: Cached)
    ensures At(x) && x.chain.head == 44 && Listed(x.lists, 22) == []
    ensures 22 in x.chain.tree && 33 in x.chain.tree && 44 in x.chain.tree && x.chain.tree[33].parent == 22
    ensures x.chain.tree[44] == Details(4, 104, 33) && x.chain.tree[33].number == 3
  {
    hide At, Step, Possible, Listed;
    x := ForkStored();
    x := Stores(x, Block(33, 22, 3, 1));
    x := StoresTwice(x, Block(22, 12, 2, 1));
    x := Forgot(x, 22);
    x := Stores(x, Block(44, 33, 4, 100));
  }

  /** A run after which the assertion that an ancestor's list is not empty fails when uncles are picked. */
  lemma LostChild()
    ensures exists x :: Reachable(x) && Sane(x.chain, P) && !ListsFull(x, P) && EmptyElder(x, 99, 2)
  {
    var x := ChildForgotten();
    hide Reachable, Inv, ListsSound, Sane, Listed, Full;
    InvSane(x.chain, P);
    ElderIs(x);
    NotFull(x);
  }

  ghost predicate EmptyElder(x: Cached, hash: Hash, d: nat) {
    && Sane(x.chain, P) && 1 <= d < x.chain.headNumber
    && ChildrenOf(x)[Uncles.Elder(FamilyOf(x.chain), Uncles.Current(hash, x.chain.head), d)] == []
  }

  lemma NotFull(x: Cached)
    requires 22 in x.chain.tree && 33 in x.chain.tree && x.chain.tree[33].parent == 22 && Listed(x.lists, 22) == []
    ensures !ListsFull(x, P)
  {
    assert ChildOf(x.chain.tree, P.genesis, 22, 33);
    hide Sound, Listed;
  }

  lemma ElderIs(x: Cached)
    requires Sane(x.chain, P) && x.chain.head == 44 && Listed(x.lists, 22) == []
    requires 22 in x.chain.tree && 33 in x.chain.tree && 44 in x.chain.tree && x.chain.tree[33].parent == 22
    requires x.chain.tree[44] == Details(4, 104, 33) && x.chain.tree[33].number == 3
    ensures EmptyElder(x, 99, 2)
  {
    var f, cur := FamilyOf(x.chain), Uncles.Current(99, x.chain.head);
    hide WellNumbered, Listed;
    Uncles.ElderStep(f, cur, 0);
    Uncles.ElderStep(f, cur, 1);
    Uncles.ParentIsElder(f, cur);
  }

  // ---------- a number that leads to the wrong block ----------

  lemma HeadIsIndexed(x: Cached)
    requires At(x) && x.chain.headNumber > 0
    ensures var n := x.chain.headNumber; n in x.chain.indexes.numbers && x.chain.indexes.numbers[n] == x.chain.head
  {
    hide Reachable, ListsSound, DifficultiesAddUp, HeadIsBest, BloomsIndexed, WellNumbered, WellShaped, Agree;
  }

  /** What the index has above a new head stays. */
  lemma IndexAbove(s: ChainState, c: Candidate, n: nat)
    requires Inv(s, P) && Genuine(s, c) && Judge(s, P, c).Accept? && Better(s, P, c) && n > c.header.number
    ensures var a, b := s.indexes.numbers, Import(s, P, c).state.indexes.numbers; (n in a <==> n in b) && (n in a ==> b[n] == a[n])
  {
    hide DifficultiesAddUp, HeadIsBest, NumbersIndexed, BloomsIndexed, WellNumbered, WellShaped, Agree, Chain, SharedLength, Reverse, Publish, ClearBlocks, Better;
    GrownSane(s, P, c);
    var g := Grown(s, c);
    LiveNumbered(g, P, c.hash);
    var k, now := Shared(g, P, c.hash), Chain(g.tree, P.genesis, c.hash);
    hide Numbered;
    PublishNumbers(Revert(s.indexes, k, |Canonical(g, P)|), now[k..], g.headers, k, n);
  }

  /** Blocks 11 and 22 were the chain before 12, which has more difficulty. */
  lemma ShorterHead() returns (x: Cached)
    ensures At(x) && x.numbers == map[] && x.chain.head == 12 && x.chain.headNumber == 1
    ensures x.chain.tree == map[1 := Details(0, 1, NO_HASH), 11 := Details(1, 2, 1), 22 := Details(2, 3, 11), 12 := Details(1, 11, 1)]
    ensures 2 in x.chain.indexes.numbers && x.chain.indexes.numbers[2] == 22
  {
    hide At, Step, Possible, Listed;
    Begins();
    StartListed();
    x := CacheRuns.Start(P, G);
    x := Stores(x, Block(11, 1, 1, 1));
    x := Stores(x, Block(22, 11, 2, 1));
    HeadIsIndexed(x);
    var y := Stores(x, Block(12, 1, 1, 10));
    AtIndexAbove(x, Block(12, 1, 1, 10), y, 2);
    x := y;
  }

  lemma AtIndexAbove(x: Cached, c: Candidate, y: Cached, n: nat)
    requires At(x) && c.hash != NO_HASH && c.hash !in x.chain.tree && c.header.parent in x.chain.tree && n > c.header.number
    requires c == Block(c.hash, c.header.parent, x.chain.tree[c.header.parent].number + 1, c.header.difficulty) && c.header.number < WORD32
    requires x.chain.head in x.chain.tree && NewDetails(x.chain, c).totalDifficulty > x.chain.tree[x.chain.head].totalDifficulty
    requires Possible(x.chain, Imports(c)) && y == Step(x, P, Imports(c))
    ensures var a, b := x.chain.indexes.numbers, y.chain.indexes.numbers; (n in a <==> n in b) && (n in a ==> b[n] == a[n])
  {
    hide Reachable, ListsSound, WellNumbered, WellShaped, Agree, Import, ListsAfter, NumbersAfter;
    NewAccepted(x.chain, c);
    IndexAbove(x.chain, c, n);
  }

  /** Number 2, above the head, has been looked up. */
  lemma LookedUp(x: Cached) returns (y: Cached)
    requires At(x) && x.numbers == map[] && x.chain.headNumber == 1 && 2 in x.chain.indexes.numbers && x.chain.indexes.numbers[2] == 22
    ensures At(y) && y == x.(numbers := map[2 := 22]) && NumbersRight(y, P)
  {
    hide Reachable, Inv, ListsSound, Right;
    InvSane(x.chain, P);
    ReachNext(x, ReadsNumber(2));
    StepSound(x, P, ReadsNumber(2));
    y := Step(x, P, ReadsNumber(2));
    hide Sane, Canonical;
    RightIff(y.numbers, y.chain, P);
  }

  /** A run after which a number does not lead to the block of the canonical chain. */
  lemma StaleNumber()
    ensures exists x :: Reachable(x) && Sane(x.chain, P) && !NumbersRight(x, P)
  {
    var x := ShorterHead();
    x := LookedUp(x);
    var c := Block(23, 12, 2, 1);
    var y := Stores(x, c);
    hide Reachable, Inv, ListsSound, NumbersRight, Sane, Fits, Step, Listed;
    InvSane(x.chain, P);
    InvSane(y.chain, P);
    NewAccepted(x.chain, c);
    ImportRightIff(x, P, c);
    DoesNotFit(x, c);
  }

  lemma DoesNotFit(x: Cached, c: Candidate)
    requires Sane(x.chain, P) && c == Block(23, 12, 2, 1) && Judge(x.chain, P, c).Accept? && x.numbers == map[2 := 22]
    requires x.chain.head == 12 && x.chain.headNumber == 1 && x.chain.tree[12] == Details(1, 11, 1)
    ensures !Fits(x.numbers, x.chain, P, c)
  {
    hide WellNumbered, WellShaped, Agree;
    var now := Chain(x.chain.tree, P.genesis, 12) + [23];
    assert |now| == 3 && now[2] == 23 && 2 in x.numbers && x.numbers[2] == 22;
    assert Better(x.chain, P, c);
    hide Chain, Judge, Better;
  }
}
