/**
  Runs of synchronisation: header and body batches, collecting, requests, expiring peers and blocks that arrive
  on their own, in any order.
 */
module SyncRuns {
  import opened RunMap
  import opened SyncSpec
  import opened SyncSafety

  datatype Event =
    | Starts
    | GetsHeaders(peer: Peer, batch: seq<Incoming>, head: Head)
    | GetsBodies(peer: Peer, items: seq<Item>)
    | Collects(results: nat -> ImportResult, unknownFull: bool, head: Head)
    | Requests(peer: Peer, queueFull: bool, numberHash: nat -> Hash)
    | LosesPeers(expired: set<Peer>)
    | Imports(number: nat, hash: Hash)
    | Resets
    | Restarts(head: Head)

  function Start(head: Head): Sync {
    Sync(Idle, map[], map[], map[], false, head.number, head.hash, {}, {}, map[], map[], false)
  }

  /** All expired peers are cleared. */
  ghost predicate Purged(s: Sync, expired: set<Peer>, s': Sync) {
    && s' == s.(downloadingHeaders := s'.downloadingHeaders, headerPeers := s'.headerPeers,
                downloadingBodies := s'.downloadingBodies, bodyPeers := s'.bodyPeers)
    && IsPurged(s.downloadingHeaders, s.headerPeers, expired, s'.downloadingHeaders, s'.headerPeers)
    && IsPurged(s.downloadingBodies, s.bodyPeers, expired, s'.downloadingBodies, s'.bodyPeers)
  }

  /** One step. After a failed assertion there is none; a block that arrives on its own is not far ahead. */
  ghost predicate Next(s: Sync, e: Event, s': Sync) {
    && !s.failed
    && match e
       case Starts => s' == s.(state := Blocks)
       case GetsHeaders(peer, batch, head) => s' == AfterHeaders(s, peer, batch, head)
       case GetsBodies(peer, items) => s' == AfterBodies(s, peer, items)
       case Collects(results, unknownFull, head) => exists k :: CollectEnds(s, results, unknownFull, head, k, s')
       case Requests(peer, queueFull, numberHash) => exists ask :: Requested(s, peer, queueFull, numberHash, ask, s')
       case LosesPeers(expired) => Purged(s, expired, s')
       case Imports(number, hash) => number <= s.last + 1 && s' == NewBlock(s, number, hash)
       case Resets => s' == Reset(s)
       case Restarts(head) => s' == Restart(s, head)
  }

  ghost predicate IsRun(head: Head, states: seq<Sync>, events: seq<Event>) {
    && |states| == |events| + 1 && states[0] == Start(head)
    && (forall i :: 0 <= i < |events| ==> Next(states[i], events[i], states[i + 1]))
  }

  // ---------- ownership ----------

  lemma ClearedOwned(s: Sync, peer: Peer)
    requires AllOwned(s)
    ensures AllOwned(ClearPeer(s, peer))
  {
    ReleasedOwned(s.downloadingHeaders, s.headerPeers, peer);
    ReleasedOwned(s.downloadingBodies, s.bodyPeers, peer);
    hide Released, Owned;
  }

  lemma FewerOwned(marked: set<nat>, peers: map<Peer, seq<nat>>, fewer: set<nat>)
    requires Owned(marked, peers) && fewer <= marked
    ensures Owned(fewer, peers)
  {
  }

  lemma CutOwned(s: Sync, h: Incoming)
    requires AllOwned(s)
    ensures AllOwned(CutAbove(s, h))
  {
    var gone := RunFrom(s.headers, h.number + 1);
    FewerOwned(s.downloadingHeaders, s.headerPeers, s.downloadingHeaders - gone);
    FewerOwned(s.downloadingBodies, s.bodyPeers, s.downloadingBodies - gone);
    hide Owned, RunFrom, FitsAbove;
  }

  lemma HeaderOwned(s: Sync, h: Incoming)
    requires AllOwned(s)
    ensures AllOwned(AcceptHeader(s, h))
  {
    CutOwned(s, h);
    PlaceOnly(CutAbove(s, h), h);
    hide Owned, CutAbove, Skipped, Place;
  }

  lemma {:induction false} BatchOwned(s: Sync, batch: seq<Incoming>, head: Head)
    requires AllOwned(s)
    ensures AllOwned(AcceptAll(s, batch, head))
    decreases |batch|
  {
    if batch != [] && !Mismatched(s, batch[0]) {
      HeaderOwned(s, batch[0]);
      hide AcceptHeader, AllOwned;
      BatchOwned(AcceptHeader(s, batch[0]), batch[1..], head);
    }
  }

  lemma {:induction false} BodiesOwned(s: Sync, items: seq<Item>)
    requires AllOwned(s)
    ensures AllOwned(AcceptBodies(s, items))
    decreases |items|
  {
    hide Owned;
    if items != [] { BodiesOwned(AcceptBody(s, items[0].id, items[0].body), items[1..]); }
  }

  lemma WithoutBlockOwned(s: Sync, n: nat, hash: Hash)
    requires AllOwned(s)
    ensures AllOwned(WithoutBlock(s, n, hash))
  {
    FewerOwned(s.downloadingHeaders, s.headerPeers, s.downloadingHeaders - {n});
    FewerOwned(s.downloadingBodies, s.bodyPeers, s.downloadingBodies - {n});
    hide WithoutRunFrom, Owned;
  }

  lemma CompletedOwned(s: Sync)
    requires AllOwned(s)
    ensures AllOwned(Completed(s))
  {
  }

  lemma NewBlockOwned(s: Sync, n: nat, hash: Hash)
    requires AllOwned(s)
    ensures AllOwned(NewBlock(s, n, hash))
  {
    hide WithoutBlock, AllOwned, Completed;
    WithoutBlockOwned(s, n, hash);
    CompletedOwned(WithoutBlock(s, n, hash));
  }

  lemma ProcessedOwned(s: Sync, results: nat -> ImportResult, k: nat)
    requires AllOwned(s) && Complete(s, k)
    ensures AllOwned(Processed(s, results, k))
  {
    AdvancedOnly(s, results, k);
    hide Advanced, Complete, From, Owned, Completed;
    CompletedOwned(Advanced(s, results, k).(headers := From(s.headers, s.last + k + 1), bodies := From(s.bodies, s.last + k + 1)));
  }

  lemma CollectOwned(s: Sync, results: nat -> ImportResult, unknownFull: bool, head: Head, k: nat, s': Sync)
    requires AllOwned(s) && CollectEnds(s, results, unknownFull, head, k, s')
    ensures AllOwned(s')
  {
    if Ready(s) {
      ProcessedOwned(s, results, k);
      EmptyOwned(s, head);
      EmptyOwned(Advanced(s, results, k - 1), head);
      SearchOwned(Reset(Advanced(s, results, k - 1)));
    }
    hide Advanced, Complete, AllPass, Processed, AllOwned, Reset, Restart, Ready;
  }

  lemma SearchOwned(s: Sync)
    requires AllOwned(s)
    ensures AllOwned(s.(haveCommon := false))
  {
  }

  lemma RequestOwned(s: Sync, peer: Peer, queueFull: bool, numberHash: nat -> Hash, ask: Ask, s': Sync)
    requires AllOwned(s) && Requested(s, peer, queueFull, numberHash, ask, s')
    ensures AllOwned(s')
  {
    ClearedOwned(s, peer);
    var c := ClearPeer(s, peer);
    if peer in s'.headerPeers { GrantedOwned(c.downloadingHeaders, c.headerPeers, peer, s'.headerPeers[peer]); }
    if peer in s'.bodyPeers { GrantedOwned(c.downloadingBodies, c.bodyPeers, peer, s'.bodyPeers[peer]); }
    hide Owned, BodiesNeeded, HeadersNeeded, SearchesFrom, Released;
  }

  lemma NextOwned(s: Sync, e: Event, s': Sync)
    requires AllOwned(s) && Next(s, e, s')
    ensures AllOwned(s')
  {
    hide AllOwned, AcceptAll, AcceptBodies, NewBlock, CollectEnds, Requested, ClearPeer;
    match e
    case Starts => StateApart(s);
    case GetsHeaders(peer, batch, head) =>
      ClearedOwned(s, peer);
      BatchOwned(ClearPeer(s, peer), batch, head);
    case GetsBodies(peer, items) =>
      ClearedOwned(s, peer);
      BodiesOwned(ClearPeer(s, peer), items);
    case Collects(results, unknownFull, head) =>
      var k :| CollectEnds(s, results, unknownFull, head, k, s');
      CollectOwned(s, results, unknownFull, head, k, s');
    case Requests(peer, queueFull, numberHash) =>
      var ask :| Requested(s, peer, queueFull, numberHash, ask, s');
      RequestOwned(s, peer, queueFull, numberHash, ask, s');
    case LosesPeers(expired) => PurgedAllOwned(s, expired, s');
    case Imports(number, hash) => NewBlockOwned(s, number, hash);
    case Resets => EmptyOwned(s, Head(0, 0));
    case Restarts(head) => EmptyOwned(s, head);
  }

  lemma StateApart(s: Sync)
    requires AllOwned(s)
    ensures AllOwned(s.(state := Blocks))
  {
  }

  lemma EmptyOwned(s: Sync, head: Head)
    ensures AllOwned(Reset(s)) && AllOwned(Restart(s, head)) && AllOwned(Start(head))
  {
  }

  lemma PurgedAllOwned(s: Sync, expired: set<Peer>, s': Sync)
    requires AllOwned(s) && Purged(s, expired, s')
    ensures AllOwned(s')
  {
    PurgedOwned(s.downloadingHeaders, s.headerPeers, expired, s'.downloadingHeaders, s'.headerPeers);
    PurgedOwned(s.downloadingBodies, s.bodyPeers, expired, s'.downloadingBodies, s'.bodyPeers);
  }

  /** In every state of every run each number marked as downloading is on the list of some peer. */
  lemma {:induction false} OwnedInEveryRun(head: Head, states: seq<Sync>, events: seq<Event>, i: nat)
    requires IsRun(head, states, events) && i < |states|
    ensures AllOwned(states[i])
  {
    hide AllOwned, Next;
    if i == 0 {
      EmptyOwned(states[0], head);
    } else {
      OwnedInEveryRun(head, states, events, i - 1);
      assert Next(states[i - 1], events[i - 1], states[i - 1 + 1]);
      NextOwned(states[i - 1], events[i - 1], states[i]);
    }
  }

  /** In every run, once expired peers are cleared each mark that is left is on the list of a peer that is alive. */
  lemma NoOrphansInEveryRun(head: Head, states: seq<Sync>, events: seq<Event>, i: nat, n: nat)
    requires IsRun(head, states, events) && i < |events| && events[i].LosesPeers?
    ensures var s := states[i + 1];
      && (n in s.downloadingHeaders ==> exists p :: p in s.headerPeers && p !in events[i].expired && n in s.headerPeers[p])
      && (n in s.downloadingBodies ==> exists p :: p in s.bodyPeers && p !in events[i].expired && n in s.bodyPeers[p])
  {
    OwnedInEveryRun(head, states, events, i);
    hide IsRun;
    assert Next(states[i], events[i], states[i + 1]);
    var s, s', expired := states[i], states[i + 1], events[i].expired;
    PurgedOwned(s.downloadingHeaders, s.headerPeers, expired, s'.downloadingHeaders, s'.headerPeers);
    PurgedOwned(s.downloadingBodies, s.bodyPeers, expired, s'.downloadingBodies, s'.bodyPeers);
    if n in s'.downloadingHeaders { assert OwnedBy(s'.headerPeers, n); }
    if n in s'.downloadingBodies { assert OwnedBy(s'.bodyPeers, n); }
  }

  // ---------- linked headers ----------

  lemma ThinnedLinked(hs: map<nat, Header>, fewer: map<nat, Header>)
    requires Linked(hs) && forall n :: n in fewer ==> n in hs && fewer[n] == hs[n]
    ensures Linked(fewer)
  {
    forall n: nat ensures LinkedAt(fewer, n) { assert LinkedAt(hs, n); }
  }

  lemma NextLinked(s: Sync, e: Event, s': Sync)
    requires s.haveCommon && Linked(s.headers) && Next(s, e, s')
    ensures Linked(s'.headers)
  {
    hide Linked, AcceptAll, AcceptBodies, Contiguous, Requested, CollectEnds;
    NoneLinked();
    match e
    case GetsHeaders(peer, batch, head) =>
      if s.state.Blocks? || s.state.NewBlocks? { BatchKeepsLinked(ClearPeer(s, peer), batch, head); }
    case GetsBodies(peer, items) => BodiesLeaveHeaders(ClearPeer(s, peer), items);
    case Collects(results, unknownFull, head) =>
      var k :| CollectEnds(s, results, unknownFull, head, k, s');
      CollectThins(s, results, unknownFull, head, k, s');
      ThinnedLinked(s.headers, s'.headers);
    case Requests(peer, queueFull, numberHash) =>
      var ask :| Requested(s, peer, queueFull, numberHash, ask, s');
      RequestLeavesMaps(s, peer, queueFull, numberHash, ask, s');
    case Imports(number, hash) => ThinnedLinked(s.headers, WithoutRunFrom(s.headers, number));
    case _ =>
  }

  lemma {:induction false} BodiesLeaveHeaders(s: Sync, items: seq<Item>)
    ensures AcceptBodies(s, items).headers == s.headers && AcceptBodies(s, items).state == s.state
    decreases |items|
  {
    if items != [] { BodiesLeaveHeaders(AcceptBody(s, items[0].id, items[0].body), items[1..]); }
  }

  lemma CollectThins(s: Sync, results: nat -> ImportResult, unknownFull: bool, head: Head, k: nat, s': Sync)
    requires CollectEnds(s, results, unknownFull, head, k, s')
    ensures Thinned(s, s')
  {
    hide Advanced, Complete, AllPass, From, Processed, Ready, Passes, Rejects, Thinned;
    ThinnedSame(s, s);
    if Ready(s) {
      ProcessedThins(s, results, k);
      ThinnedSame(s, Restart(s, head));
      AdvancedOnly(s, results, k - 1);
      ThinnedSame(s, Reset(Advanced(s, results, k - 1)).(haveCommon := false));
    }
  }

  /** The maps lost entries at most, and the state is the same unless they are empty. */
  predicate Thinned(s: Sync, s': Sync) {
    && (forall n :: n in s'.headers ==> n in s.headers && s'.headers[n] == s.headers[n])
    && (forall n :: n in s'.bodies ==> n in s.bodies && s'.bodies[n] == s.bodies[n])
    && (s'.state == s.state || (s'.headers == map[] && s'.bodies == map[])) && (s'.ids == s.ids || s'.ids == map[])
  }

  lemma ThinnedSame(s: Sync, s': Sync)
    requires s' == s || (s'.headers == map[] && s'.bodies == map[] && s'.ids == map[])
    ensures Thinned(s, s')
  {
  }

  lemma ProcessedThins(s: Sync, results: nat -> ImportResult, k: nat)
    requires Complete(s, k)
    ensures Thinned(s, Processed(s, results, k))
  {
    hide Advanced, Complete, From, Completed;
    AdvancedOnly(s, results, k);
    CompletedThins(Advanced(s, results, k).(headers := From(s.headers, s.last + k + 1), bodies := From(s.bodies, s.last + k + 1)));
    FromThins(s.headers, s.last + k + 1);
    FromThins(s.bodies, s.last + k + 1);
  }

  lemma FromThins<T>(m: map<nat, T>, n: nat)
    ensures forall i :: i in From(m, n) ==> i in m && From(m, n)[i] == m[i]
  {
  }

  lemma CompletedThins(t: Sync)
    ensures var s' := Completed(t);
      || (s'.headers == t.headers && s'.bodies == t.bodies && s'.state == t.state && s'.ids == t.ids)
      || (s'.headers == map[] && s'.bodies == map[] && s'.ids == map[])
  {
  }

  lemma RequestLeavesMaps(s: Sync, peer: Peer, queueFull: bool, numberHash: nat -> Hash, ask: Ask, s': Sync)
    requires Requested(s, peer, queueFull, numberHash, ask, s')
    ensures s'.headers == s.headers && s'.bodies == s.bodies && s'.ids == s.ids && s'.failed == s.failed
    ensures s'.state == s.state || s'.state.Waiting?
  {
    hide BodiesNeeded, HeadersNeeded, SearchesFrom, Released;
  }

  /** In every run, from a state with a common header and linked headers on, they stay linked while one is known. */
  lemma {:induction false} LinkedInEveryRun(head: Head, states: seq<Sync>, events: seq<Event>, i: nat, j: nat)
    requires IsRun(head, states, events) && i <= j < |states| && Linked(states[i].headers)
    requires forall k :: i <= k < j ==> states[k].haveCommon
    ensures Linked(states[j].headers)
  {
    hide Linked, Next;
    if i < j {
      LinkedInEveryRun(head, states, events, i, j - 1);
      assert Next(states[j - 1], events[j - 1], states[j - 1 + 1]);
      NextLinked(states[j - 1], events[j - 1], states[j]);
    }
  }

  // ---------- failed assertions ----------

  /** A step in which a block that arrives on its own strands a body. */
  predicate StrandsIn(s: Sync, e: Event) {
    e.Imports? && Strands(s, e.number)
  }

  lemma NextCovered(s: Sync, e: Event, s': Sync)
    requires Covered(s) && Next(s, e, s') && !StrandsIn(s, e)
    ensures Covered(s') && (s'.failed ==> e.GetsBodies?)
  {
    hide AcceptAll, AcceptBodies, Contiguous, Requested, CollectEnds, NewBlock, Strands;
    match e
    case GetsHeaders(peer, batch, head) => CoveredBatch(ClearPeer(s, peer), batch, head);
    case GetsBodies(peer, items) => CoveredBodies(ClearPeer(s, peer), items);
    case Collects(results, unknownFull, head) =>
      var k :| CollectEnds(s, results, unknownFull, head, k, s');
      CollectCovered(s, results, unknownFull, head, k, s');
    case Requests(peer, queueFull, numberHash) =>
      var ask :| Requested(s, peer, queueFull, numberHash, ask, s');
      RequestLeavesMaps(s, peer, queueFull, numberHash, ask, s');
    case Imports(number, hash) => NewBlockCoveredIff(s, number, hash);
    case _ =>
  }

  lemma CollectCovered(s: Sync, results: nat -> ImportResult, unknownFull: bool, head: Head, k: nat, s': Sync)
    requires Covered(s) && !s.failed && CollectEnds(s, results, unknownFull, head, k, s')
    ensures Covered(s') && !s'.failed
  {
    if Ready(s) {
      AdvancedOnly(s, results, k - 1);
      CoveredCollect(s, results, k);
    }
    hide Advanced, Complete, AllPass, Processed;
  }

  /** If no new block strands a body, every body has its header, and only a body that arrives can fail an assertion. */
  lemma {:induction false} CoveredInEveryRun(head: Head, states: seq<Sync>, events: seq<Event>, i: nat)
    requires IsRun(head, states, events) && i < |states|
    requires forall k :: 0 <= k < |events| ==> !StrandsIn(states[k], events[k])
    ensures Covered(states[i]) && (states[i].failed ==> i > 0 && events[i - 1].GetsBodies?)
  {
    hide Next, StrandsIn;
    if i > 0 {
      CoveredInEveryRun(head, states, events, i - 1);
      hide Covered;
      assert Next(states[i - 1], events[i - 1], states[i - 1 + 1]);
      NextCovered(states[i - 1], events[i - 1], states[i]);
    }
  }

  /** Each header that the step merges finds no other id leading to its number. */
  predicate FreshIn(s: Sync, e: Event) {
    e.GetsHeaders? && (s.state.Blocks? || s.state.NewBlocks?) ==> FreshBatch(ClearPeer(s, e.peer), e.batch)
  }

  lemma NextAgrees(s: Sync, e: Event, s': Sync)
    requires Covered(s) && Agreeing(s) && Next(s, e, s') && !StrandsIn(s, e) && FreshIn(s, e)
    ensures Agreeing(s') && !s'.failed
  {
    NextCovered(s, e, s');
    hide AcceptAll, AcceptBodies, Requested, CollectEnds, NewBlock, StrandsIn, Covered, Agreeing, FreshBatch, Thinned;
    match e
    case Starts => FewerAgree(s, s');
    case GetsHeaders(peer, batch, head) =>
      FewerAgree(s, ClearPeer(s, peer));
      ClearedCovered(s, peer);
      if s.state.Blocks? || s.state.NewBlocks? { AgreeingBatch(ClearPeer(s, peer), batch, head); }
    case GetsBodies(peer, items) =>
      FewerAgree(s, ClearPeer(s, peer));
      AgreeingBodies(ClearPeer(s, peer), items);
    case Collects(results, unknownFull, head) =>
      var k :| CollectEnds(s, results, unknownFull, head, k, s');
      CollectThins(s, results, unknownFull, head, k, s');
      ThinnedAgrees(s, s');
    case Requests(peer, queueFull, numberHash) =>
      var ask :| Requested(s, peer, queueFull, numberHash, ask, s');
      RequestLeavesMaps(s, peer, queueFull, numberHash, ask, s');
      FewerAgree(s, s');
    case Imports(number, hash) =>
      NewBlockThins(s, number, hash);
      ThinnedAgrees(s, s');
    case LosesPeers(expired) => FewerAgree(s, s');
    case _ => NothingAgrees(s');
  }

  lemma ClearedCovered(s: Sync, peer: Peer)
    requires Covered(s)
    ensures Covered(ClearPeer(s, peer))
  {
  }

  lemma NewBlockThins(s: Sync, n: nat, hash: Hash)
    ensures Thinned(s, NewBlock(s, n, hash))
  {
    hide Contiguous, Completed;
    CompletedThins(WithoutBlock(s, n, hash));
  }

  lemma ThinnedAgrees(s: Sync, s': Sync)
    requires Agreeing(s) && Thinned(s, s')
    ensures Agreeing(s')
  {
  }

  /**
    In every run in which each merged header finds no other id leading to its number, and no new block strands a
    body, no assertion ever fails.
   */
  lemma {:induction false} NoFailureInEveryRun(head: Head, states: seq<Sync>, events: seq<Event>, i: nat)
    requires IsRun(head, states, events) && i < |states|
    requires forall k :: 0 <= k < |events| ==> !StrandsIn(states[k], events[k]) && FreshIn(states[k], events[k])
    ensures !states[i].failed && Agreeing(states[i])
  {
    hide Next, StrandsIn, FreshIn;
    if i > 0 {
      NoFailureInEveryRun(head, states, events, i - 1);
      CoveredInEveryRun(head, states, events, i - 1);
      hide Covered, Agreeing;
      assert Next(states[i - 1], events[i - 1], states[i - 1 + 1]);
      NextAgrees(states[i - 1], events[i - 1], states[i]);
    }
  }

  // ---------- nothing held while idle ----------

  /** Nothing is held unless blocks are being downloaded. */
  predicate IdleIsEmpty(s: Sync) {
    s.state.Idle? || s.state.NotSynced? ==> s.headers == map[] && s.bodies == map[]
  }

  lemma {:induction false} BatchState(s: Sync, batch: seq<Incoming>, head: Head)
    requires s.state.Blocks? || s.state.NewBlocks?
    ensures IdleIsEmpty(AcceptAll(s, batch, head))
    decreases |batch|
  {
    if batch != [] && !Mismatched(s, batch[0]) {
      PlaceOnly(CutAbove(s, batch[0]), batch[0]);
      hide RunFrom, FitsAbove, Skipped, Place;
      BatchState(AcceptHeader(s, batch[0]), batch[1..], head);
    }
  }

  lemma NextIdle(s: Sync, e: Event, s': Sync)
    requires IdleIsEmpty(s) && Next(s, e, s')
    ensures IdleIsEmpty(s')
  {
    hide AcceptAll, AcceptBodies, Contiguous, Requested, CollectEnds, Released, NewBlock, IsPurged;
    match e
    case GetsHeaders(peer, batch, head) =>
      if s.state.Blocks? || s.state.NewBlocks? { BatchState(ClearPeer(s, peer), batch, head); }
    case GetsBodies(peer, items) => BodiesLeaveHeaders(ClearPeer(s, peer), items);
    case Collects(results, unknownFull, head) =>
      var k :| CollectEnds(s, results, unknownFull, head, k, s');
      CollectThins(s, results, unknownFull, head, k, s');
    case Requests(peer, queueFull, numberHash) =>
      var ask :| Requested(s, peer, queueFull, numberHash, ask, s');
      RequestLeavesMaps(s, peer, queueFull, numberHash, ask, s');
    case Imports(number, hash) => NewBlockThins(s, number, hash);
    case _ =>
  }

  lemma {:induction false} IdleInEveryRun(head: Head, states: seq<Sync>, events: seq<Event>, i: nat)
    requires IsRun(head, states, events) && i < |states|
    ensures IdleIsEmpty(states[i])
  {
    hide Next;
    if i > 0 {
      IdleInEveryRun(head, states, events, i - 1);
      assert Next(states[i - 1], events[i - 1], states[i - 1 + 1]);
      NextIdle(states[i - 1], events[i - 1], states[i]);
    }
  }
}
