/** The synchronisation object: the same download state, with headers and bodies in run-compressed maps. */
module ChainSyncObject {
  import opened Options
  import opened RunMap
  import opened SyncSpec
  import opened SyncRuns

  /** The numbers of a whole run, found from its start. */
  lemma RunNumbers(m: Runs<Header>, n: nat)
    requires WellFormed(m) && n in Contents(m) && (n > 0 ==> n - 1 !in Contents(m))
    ensures var k := LowerBound(m, n);
      && k < |m| && m[k].start == n
      && (forall i :: i in RunFrom(Contents(m), n) <==> n <= i < End(m[k]))
  {
    hide Contents, Contiguous;
    StartsRun(m, n);
    var k := LowerBound(m, n);
    forall i: nat ensures i in RunFrom(Contents(m), n) <==> n <= i < End(m[k]) {
      ContiguousIs(m, k, n, i);
      if n <= i < End(m[k]) {
        AtRun(m, k, i);
        ContentsAt(m, i);
      }
    }
  }

  class ChainSync {
    var state: SyncState
    var headers: Runs<Header>
    var bodies: Runs<Body>
    var headerIdToNumber: map<Id, nat>
    var haveCommonHeader: bool
    var lastImportedBlock: nat
    var lastImportedBlockHash: Hash
    var downloadingHeaders: set<nat>
    var downloadingBodies: set<nat>
    var headerSyncPeers: map<Peer, seq<nat>>
    var bodySyncPeers: map<Peer, seq<nat>>
    var failed: bool

    ghost function View(): Sync
      reads this
    {
      Sync(state, Contents(headers), Contents(bodies), headerIdToNumber, haveCommonHeader, lastImportedBlock,
           lastImportedBlockHash, downloadingHeaders, downloadingBodies, headerSyncPeers, bodySyncPeers, failed)
    }

    ghost predicate Valid()
      reads this
    {
      WellFormed(headers) && WellFormed(bodies) && AllOwned(View())
    }

    constructor (head: Head)
      ensures Valid() && View() == Start(head)
    {
      state, headers, bodies, headerIdToNumber, haveCommonHeader, failed := Idle, [], [], map[], false, false;
      lastImportedBlock, lastImportedBlockHash := head.number, head.hash;
      downloadingHeaders, downloadingBodies, headerSyncPeers, bodySyncPeers := {}, {}, map[], map[];
    }

    // ---------- clearing ----------

    method ClearPeerDownload(peer: Peer)
      requires Valid()
      modifies this`downloadingHeaders, this`downloadingBodies, this`headerSyncPeers, this`bodySyncPeers
      ensures Valid() && View() == ClearPeer(old(View()), peer)
    {
      hide Contents, WellFormed;
      ReleasedOwned(downloadingHeaders, headerSyncPeers, peer);
      ReleasedOwned(downloadingBodies, bodySyncPeers, peer);
      if peer in headerSyncPeers {
        downloadingHeaders := EraseAll(downloadingHeaders, headerSyncPeers[peer]);
        headerSyncPeers := headerSyncPeers - {peer};
      }
      if peer in bodySyncPeers {
        downloadingBodies := EraseAll(downloadingBodies, bodySyncPeers[peer]);
        bodySyncPeers := bodySyncPeers - {peer};
      }
      assert headerSyncPeers == old(headerSyncPeers) - {peer} && bodySyncPeers == old(bodySyncPeers) - {peer};
    }

    /** Clears every expired peer. */
    method ClearExpired(expired: set<Peer>)
      requires Valid() && !failed
      modifies this`downloadingHeaders, this`downloadingBodies, this`headerSyncPeers, this`bodySyncPeers
      ensures Valid() && Next(old(View()), LosesPeers(expired), View())
    {
      hide Contents, WellFormed, IsPurged, AllOwned;
      ghost var start := View();
      downloadingHeaders, headerSyncPeers := Purge(downloadingHeaders, headerSyncPeers, expired);
      downloadingBodies, bodySyncPeers := Purge(downloadingBodies, bodySyncPeers, expired);
      PurgedAllOwned(start, expired, View());
    }

    method ResetSync()
      modifies this
      ensures Valid() && View() == Reset(old(View()))
    {
      hide Contents, WellFormed, AllOwned;
      NoRuns<Header>();
      NoRuns<Body>();
      EmptyOwned(View(), Head(0, 0));
      downloadingHeaders, downloadingBodies, headers, bodies, headerIdToNumber := {}, {}, [], [], map[];
      headerSyncPeers, bodySyncPeers, state := map[], map[], Idle;
    }

    method RestartSync(head: Head)
      modifies this
      ensures Valid() && View() == Restart(old(View()), head)
    {
      ResetSync();
      haveCommonHeader := false;
      lastImportedBlock, lastImportedBlockHash := head.number, head.hash;
      state := NotSynced;
    }

    // ---------- requesting ----------

    /** Decides what to ask a peer for: bodies of the first run of headers if any are missing, else headers. */
    method RequestBlocks(peer: Peer, queueFull: bool, numberHash: nat -> Hash) returns (ask: Ask)
      requires Valid() && !failed
      modifies this
      ensures Valid() && Requested(old(View()), peer, queueFull, numberHash, ask, View())
      ensures Next(old(View()), Requests(peer, queueFull, numberHash), View())
      ensures ask.AskHeaders? && haveCommonHeader ==>
        var marks, last := ClearPeer(old(View()), peer).downloadingHeaders, SearchPoint(old(headers), old(haveCommonHeader), old(lastImportedBlock));
        IsList(old(headers), marks, last, ask, headerSyncPeers[peer])
    {
      hide Contents, WellFormed, AllOwned, ClearPeer, HeadersNeeded, SearchesFrom, IsList, Requested, BodyWanted;
      ghost var start := View();
      ClearPeerDownload(peer);
      if queueFull {
        ghost var cleared := View();
        state := Waiting;
        SameMarks(cleared, View());
        ask := NoAsk;
        FullRequest(start, peer, numberHash);
        return;
      }
      var numbers, hashes := [], [];
      ghost var c := View();
      if haveCommonHeader && headers != [] && headers[0].start == lastImportedBlock + 1 {
        numbers, hashes := NeededBodies(headers, bodies, downloadingBodies);
      }
      if numbers != [] {
        BodyListOwned(start, peer, numbers);
        NumbersWanted(c, headers, numbers, hashes);
        BodyRequest(start, peer, numberHash, numbers, hashes);
        downloadingBodies := downloadingBodies + (set n | n in numbers);
        bodySyncPeers := bodySyncPeers[peer := numbers];
        return AskBodies(hashes);
      }
      NoBodyWanted(c, headers);
      ask := RequestHeaders(peer, numberHash, start);
    }

    /** Without a common header, takes the last imported block back to where the search goes on. */
    method SearchBack(peer: Peer, numberHash: nat -> Hash, ghost s: Sync)
      requires Valid() && View() == ClearPeer(s, peer)
      modifies this`lastImportedBlock, this`lastImportedBlockHash, this`haveCommonHeader
      ensures Valid() && SearchedTo(s, peer, numberHash, View()) && peer !in headerSyncPeers
      ensures lastImportedBlock == SearchPoint(headers, old(haveCommonHeader), old(lastImportedBlock))
    {
      hide Contents, WellFormed, AllOwned, SearchesFrom;
      ClearedFields(s, peer);
      hide ClearPeer;
      ghost var c := View();
      if !haveCommonHeader {
        var start := SearchStart(headers, lastImportedBlock);
        lastImportedBlock, lastImportedBlockHash := start, numberHash(start);
        if start <= 1 { haveCommonHeader := true; }
      }
      SameMarks(c, View());
    }

    method RequestHeaders(peer: Peer, numberHash: nat -> Hash, ghost s: Sync) returns (ask: Ask)
      requires Valid() && !failed && View() == ClearPeer(s, peer) && forall n: nat :: !BodyWanted(View(), n)
      modifies this`lastImportedBlock, this`lastImportedBlockHash, this`haveCommonHeader, this`downloadingHeaders, this`headerSyncPeers
      ensures Valid() && Requested(s, peer, false, numberHash, ask, View()) && !ask.AskBodies?
      ensures ask.AskHeaders? && haveCommonHeader ==>
        && peer in headerSyncPeers
        && IsList(headers, old(downloadingHeaders), SearchPoint(headers, old(haveCommonHeader), old(lastImportedBlock)), ask, headerSyncPeers[peer])
    {
      hide Contents, WellFormed, AllOwned, ClearPeer, HeadersNeeded, SearchedTo, Gap, IsGap, Requested, BodyWanted, HeaderWanted;
      SearchBack(peer, numberHash, s);
      ghost var t := View();
      if !haveCommonHeader {
        OneHeaderRequest(s, peer, numberHash, t);
        return AskHeaders(lastImportedBlock, 1);
      }
      var start, wanted := FindGap(headers, downloadingHeaders, lastImportedBlock);
      if wanted == [] {
        NoneWanted(t, headers);
        NoHeaderRequest(s, peer, numberHash, t);
        return NoAsk;
      }
      GapNeeded(headers, t, wanted, start);
      ListRequest(s, peer, numberHash, t, wanted, start);
      ListOwned(t, peer, wanted);
      GapSkipsIff(headers, downloadingHeaders, lastImportedBlock);
      downloadingHeaders := downloadingHeaders + (set n | n in wanted);
      headerSyncPeers := headerSyncPeers[peer := wanted];
      ask := AskHeaders(start, |wanted|);
    }

    // ---------- receiving headers ----------

    /** Drops the headers and bodies above a new header that they do not fit on, and the new header's own id. */
    method CutFollowing(h: Incoming)
      requires Valid() && !Skipped(View(), h)
      modifies this`headers, this`bodies, this`headerIdToNumber, this`downloadingHeaders, this`downloadingBodies
      ensures Valid() && View() == CutAbove(old(View()), h) && h.number !in Contents(headers)
    {
      hide Contents, WellFormed, RunFrom, AllOwned;
      var n := h.number + 1;
      var next := FindItem(headers, n);
      CutOwned(View(), h);
      if haveCommonHeader && next.Some? && next.value.parent != h.header.hash {
        ghost var gone := RunFrom(Contents(headers), n);
        EraseMarks(n, h.header.id, gone);
        RemoveAllIsBelow(headers, n);
        RemoveAllIsBelow(bodies, n);
        headers := RemoveAllStartingWith(headers, n);
        bodies := RemoveAllStartingWith(bodies, n);
      }
    }

    /** The loop over the run of headers that starts at n. */
    method EraseMarks(n: nat, id: Id, ghost gone: set<nat>)
      requires WellFormed(headers) && n in Contents(headers) && (n > 0 ==> n - 1 !in Contents(headers))
      requires gone == RunFrom(Contents(headers), n)
      modifies this`headerIdToNumber, this`downloadingHeaders, this`downloadingBodies
      ensures headerIdToNumber == old(headerIdToNumber) - {id}
      ensures downloadingHeaders == old(downloadingHeaders) - gone && downloadingBodies == old(downloadingBodies) - gone
    {
      hide Contents, RunFrom;
      RunNumbers(headers, n);
      FirstOfRun(headers, n);
      var run := headers[LowerBound(headers, n)];
      downloadingBodies, downloadingHeaders := EraseRun(downloadingBodies, downloadingHeaders, n, |run.items|, gone);
      headerIdToNumber := EraseId(headerIdToNumber, id, |run.items|);
    }

    /**
      One header of a batch; false if it contradicts what is held, and synchronisation starts over. The
      assertion on merging an empty body may fail.
     */
    method TakeHeader(h: Incoming, head: Head) returns (ok: bool)
      requires Valid() && !failed
      modifies this
      ensures Valid() && ok == !Mismatched(old(View()), h)
      ensures View() == if ok then AcceptHeader(old(View()), h) else Restart(old(View()), head)
    {
      hide Contents, WellFormed, CutAbove, MergeInto, Owned;
      if HaveItem(headers, h.number) { return true; }
      if h.number <= lastImportedBlock && haveCommonHeader { return true; }
      if h.known {
        haveCommonHeader := true;
        lastImportedBlock, lastImportedBlockHash := h.number, h.header.hash;
        return true;
      }
      if haveCommonHeader {
        var prev := FindItem(headers, h.number - 1);
        if (prev.Some? && prev.value.hash != h.header.parent)
           || (h.number == lastImportedBlock + 1 && h.header.parent != lastImportedBlockHash) {
          RestartSync(head);
          return false;
        }
      }
      assert !Mismatched(View(), h);
      CutFollowing(h);
      PlaceHeader(h);
      ok := true;
    }

    method PlaceHeader(h: Incoming)
      requires Valid() && h.number !in Contents(headers)
      modifies this`headers, this`bodies, this`headerIdToNumber, this`failed
      ensures Valid() && View() == Place(old(View()), h)
    {
      hide Contents, WellFormed, MergeInto, Owned;
      MergeInserts(headers, h.number, h.header);
      headers := MergeInto(headers, h.number, h.header);
      if h.header.id != EMPTY_ID {
        headerIdToNumber := headerIdToNumber[h.header.id := h.number];
      } else if HaveItem(bodies, h.number) {
        failed := true;
      } else {
        MergeInserts(bodies, h.number, EMPTY_BODY);
        bodies := MergeInto(bodies, h.number, EMPTY_BODY);
      }
    }

    /** A batch of headers from a peer; collecting the blocks that became complete is the next step. */
    method OnPeerBlockHeaders(peer: Peer, batch: seq<Incoming>, head: Head)
      requires Valid() && !failed
      modifies this
      ensures Valid() && View() == AfterHeaders(old(View()), peer, batch, head)
      ensures Next(old(View()), GetsHeaders(peer, batch, head), View())
    {
      hide Contents, WellFormed, AcceptHeader, Mismatched, AllOwned, ClearPeer, Restart;
      ClearPeerDownload(peer);
      if state != Blocks && state != NewBlocks { return; }
      ghost var start := View();
      for i := 0 to |batch|
        invariant Valid() && !failed && AcceptAll(View(), batch[i..], head) == AcceptAll(start, batch, head)
      {
        assert batch[i..][0] == batch[i] && batch[i..][1..] == batch[i + 1..];
        var ok := TakeHeader(batch[i], head);
        if !ok || failed { return; }
      }
    }

    // ---------- receiving bodies ----------

    /** One body: its id leads to its number, if to any. The assertion on merging it may fail. */
    method TakeBody(id: Id, body: Body)
      requires Valid() && !failed
      modifies this`bodies, this`headerIdToNumber, this`failed
      ensures Valid() && View() == AcceptBody(old(View()), id, body)
    {
      hide Contents, WellFormed, MergeInto, Owned;
      if id !in headerIdToNumber || !HaveItem(headers, headerIdToNumber[id]) { return; }
      var n := headerIdToNumber[id];
      headerIdToNumber := headerIdToNumber - {id};
      if HaveItem(bodies, n) {
        failed := true;
      } else {
        MergeInserts(bodies, n, body);
        bodies := MergeInto(bodies, n, body);
      }
    }

    method OnPeerBlockBodies(peer: Peer, items: seq<Item>)
      requires Valid() && !failed
      modifies this
      ensures Valid() && View() == AfterBodies(old(View()), peer, items)
      ensures Next(old(View()), GetsBodies(peer, items), View())
    {
      hide Contents, WellFormed, AcceptBody, AllOwned, ClearPeer;
      ClearPeerDownload(peer);
      if state != Blocks && state != NewBlocks { return; }
      ghost var start := View();
      for i := 0 to |items|
        invariant Valid() && !failed && AcceptBodies(View(), items[i..]) == AcceptBodies(start, items)
      {
        assert items[i..][0] == items[i] && items[i..][1..] == items[i + 1..];
        TakeBody(items[i].id, items[i].body);
        if failed { return; }
      }
    }

    // ---------- collecting ----------

    /** A rejected block restarts synchronisation; one out of place starts the search for a common header again. */
    method GiveUp(r: ImportResult, number: nat, head: Head)
      requires !Passes(r) && number > lastImportedBlock
      modifies this
      ensures Valid()
      ensures Rejects(r) ==> View() == Restart(old(View()), head)
      ensures !Rejects(r) ==> View() == Reset(old(View())).(haveCommon := false)
    {
      if Rejects(r) {
        RestartSync(head);
      } else if number > lastImportedBlock {
        ResetSync();
        haveCommonHeader := false;
      }
    }

    /** Completes synchronisation if no header is left; the assertion that no body is left either may fail. */
    method CompleteIfDone()
      requires Valid()
      modifies this
      ensures Valid() && View() == Completed(old(View()))
    {
      hide Contents, WellFormed, Owned;
      EmptyIff(headers);
      EmptyIff(bodies);
      if headers == [] {
        if bodies != [] { failed := true; } else { ResetSync(); }
      }
    }

    /** Takes the first i items off both maps. */
    method DropProcessed(i: nat)
      requires Valid() && headers != [] && bodies != []
      requires headers[0].start == bodies[0].start && i <= |headers[0].items| && i <= |bodies[0].items|
      modifies this
      ensures Valid()
      ensures var n := old(headers[0].start) + i;
        View() == Completed(old(View()).(headers := From(old(View()).headers, n), bodies := From(old(View()).bodies, n)))
    {
      hide Contents, WellFormed, DropPrefix, Completed, Owned;
      DropPrefixIs(headers, i);
      DropPrefixIs(bodies, i);
      headers := DropPrefix(headers, i);
      bodies := DropPrefix(bodies, i);
      CompleteIfDone();
    }

    /**
      Offers the blocks that are complete, from the one after the last imported block on, to the queue.
      `results` is what the queue answers, one answer for each.
     */
    method CollectBlocks(results: nat -> ImportResult, unknownFull: bool, head: Head) returns (offered: seq<Header>)
      requires Valid() && !failed
      modifies this
      ensures Valid() && OfferedFrom(old(View()), offered)
      ensures CollectEnds(old(View()), results, unknownFull, head, |offered|, View())
      ensures Next(old(View()), Collects(results, unknownFull, head), View())
    {
      hide CollectEnds, OfferedFrom, AllOwned, WellFormed, Contents;
      offered := Collect(results, unknownFull, head);
    }

    method Collect(results: nat -> ImportResult, unknownFull: bool, head: Head) returns (offered: seq<Header>)
      requires Valid() && !failed
      modifies this
      ensures Valid() && OfferedFrom(old(View()), offered)
      ensures CollectEnds(old(View()), results, unknownFull, head, |offered|, View())
    {
      hide Contents, WellFormed, Complete, Advanced, AllOwned, From, Reset, Restart, Ready, Passes, Rejects, OfferedFrom, AllPass,
        Completed, Processed, CollectEnds;
      ghost var start := View();
      ReadyIff(start, headers, bodies);
      NothingCollected(start, results, unknownFull, head);
      if !haveCommonHeader || headers == [] || bodies == [] { return []; }
      var hs, bs := headers[0], bodies[0];
      if hs.start != bs.start || hs.start != lastImportedBlock + 1 { return []; }
      var stop: Option<ImportResult>;
      ghost var k;
      offered, stop, lastImportedBlock, lastImportedBlockHash :=
        OfferBlocks(hs, bs, lastImportedBlock, lastImportedBlockHash, results, start, headers, bodies);
      k := |offered|;
      OfferedRight(start, headers, offered);
      SameMarks(start, View());
      if stop.Some? {
        AdvancedOnly(start, results, k - 1);
        CollectGivesUp(start, results, unknownFull, head, k);
        GiveUp(stop.value, hs.start + |offered| - 1, head);
        return;
      }
      AdvancedOnly(start, results, k);
      NoMoreComplete(start, headers, bodies, k);
      CollectFinishes(start, results, unknownFull, head, k);
      if unknownFull {
        RestartSync(head);
        return;
      }
      DropProcessed(|offered|);
    }

    /** A block that arrived on its own has been imported. */
    method OnNewBlockImported(n: nat, hash: Hash)
      requires Valid() && !failed && n <= lastImportedBlock + 1
      modifies this
      ensures Valid() && View() == NewBlock(old(View()), n, hash) && Next(old(View()), Imports(n, hash), View())
    {
      hide Contents, WellFormed, AllOwned, Completed, WithoutBlock;
      DropBlock(n, hash);
      CompleteIfDone();
    }

    /** The block takes the place of the last imported one if it is above it, and leaves the marks and both maps. */
    method DropBlock(n: nat, hash: Hash)
      requires Valid()
      modifies this`lastImportedBlock, this`lastImportedBlockHash, this`downloadingBodies, this`downloadingHeaders, this`headers, this`bodies
      ensures Valid() && View() == WithoutBlock(old(View()), n, hash)
    {
      hide RemoveItem, Contents, WellFormed, AllOwned, WithoutRunFrom;
      WithoutBlockOwned(View(), n, hash);
      if n > lastImportedBlock {
        lastImportedBlock, lastImportedBlockHash := n, hash;
      }
      downloadingBodies := downloadingBodies - {n};
      downloadingHeaders := downloadingHeaders - {n};
      RemoveItemIs(headers, n);
      RemoveItemIs(bodies, n);
      headers := RemoveItem(headers, n);
      bodies := RemoveItem(bodies, n);
    }
  }

  lemma NoRuns<T>()
    ensures WellFormed<T>([]) && Contents<T>([]) == map[]
  {
  }

  lemma FirstIsLowest<T>(m: Runs<T>, n: nat)
    requires WellFormed(m) && m != []
    ensures m[0].start in Contents(m) && (n in Contents(m) ==> m[0].start <= n)
  {
    AtRun(m, 0, m[0].start);
    ContentsAt(m, m[0].start);
    ContentsAt(m, n);
  }

  /** Looking at the first runs decides whether blocks are ready. */
  lemma ReadyIff(s: Sync, headers: Runs<Header>, bodies: Runs<Body>)
    requires WellFormed(headers) && WellFormed(bodies) && s.headers == Contents(headers) && s.bodies == Contents(bodies)
    ensures Ready(s) <==> s.haveCommon && headers != [] && bodies != [] && headers[0].start == bodies[0].start == s.last + 1
  {
    hide WellFormed, Contents;
    EmptyIff(headers);
    EmptyIff(bodies);
    if headers != [] && bodies != [] {
      forall n ensures n in s.headers ==> headers[0].start <= n { FirstIsLowest(headers, n); }
      forall n ensures n in s.bodies ==> bodies[0].start <= n { FirstIsLowest(bodies, n); }
      FirstIsLowest(headers, 0);
      FirstIsLowest(bodies, 0);
    }
  }

  lemma FirstRunAt<T>(m: Runs<T>, i: nat)
    requires WellFormed(m) && m != [] && i <= |m[0].items|
    ensures if i < |m[0].items| then m[0].start + i in Contents(m) && Contents(m)[m[0].start + i] == m[0].items[i]
            else m[0].start + i !in Contents(m)
  {
    ContentsAt(m, m[0].start + i);
    if i < |m[0].items| { AtRun(m, 0, m[0].start + i); } else { AtOutside(m, m[0].start + i); }
  }

  lemma OneMoreComplete(s: Sync, headers: Runs<Header>, bodies: Runs<Body>, i: nat)
    requires WellFormed(headers) && WellFormed(bodies) && s.headers == Contents(headers) && s.bodies == Contents(bodies)
    requires headers != [] && bodies != [] && headers[0].start == bodies[0].start == s.last + 1
    requires i < |headers[0].items| && i < |bodies[0].items| && Complete(s, i)
    ensures Complete(s, i + 1) && s.headers[s.last + 1 + i] == headers[0].items[i]
  {
    hide WellFormed, Contents;
    FirstRunAt(headers, i);
    FirstRunAt(bodies, i);
  }

  lemma NoMoreComplete(s: Sync, headers: Runs<Header>, bodies: Runs<Body>, i: nat)
    requires WellFormed(headers) && WellFormed(bodies) && s.headers == Contents(headers) && s.bodies == Contents(bodies)
    requires headers != [] && bodies != [] && headers[0].start == bodies[0].start == s.last + 1
    requires i <= |headers[0].items| && i <= |bodies[0].items| && (i == |headers[0].items| || i == |bodies[0].items|)
    ensures !Complete(s, i + 1)
  {
    hide WellFormed, Contents;
    FirstRunAt(headers, i);
    FirstRunAt(bodies, i);
    assert s.last < s.last + 1 + i <= s.last + i + 1;
  }

  /** What has been offered are the held headers at the numbers after the last imported one, linked if those are. */
  lemma OfferedRight(s: Sync, headers: Runs<Header>, offered: seq<Header>)
    requires WellFormed(headers) && s.headers == Contents(headers) && headers != [] && headers[0].start == s.last + 1
    requires |offered| <= |headers[0].items| && offered == headers[0].items[..|offered|] && Complete(s, |offered|)
    ensures OfferedFrom(s, offered)
  {
    hide WellFormed, Contents, Linked;
    forall i | 0 <= i < |offered| ensures s.last + 1 + i in s.headers && offered[i] == s.headers[s.last + 1 + i] { FirstRunAt(headers, i); }
    if Linked(s.headers) {
      forall i | 0 < i < |offered| ensures offered[i].parent == offered[i - 1].hash { LinkedPair(s.headers, s.last + i); }
    }
  }

  /** Offers the blocks of the first runs one by one, up to the first answer that stops it. */
  method OfferBlocks(hs: Run<Header>, bs: Run<Body>, last: nat, lastHash: Hash, results: nat -> ImportResult,
                     ghost s: Sync, ghost headers: Runs<Header>, ghost bodies: Runs<Body>)
    returns (offered: seq<Header>, stop: Option<ImportResult>, last': nat, lastHash': Hash)
    requires WellFormed(headers) && WellFormed(bodies) && s.headers == Contents(headers) && s.bodies == Contents(bodies)
    requires headers != [] && bodies != [] && hs == headers[0] && bs == bodies[0]
    requires last == s.last && lastHash == s.lastHash && hs.start == bs.start == last + 1
    ensures offered != [] && |offered| <= |hs.items| && |offered| <= |bs.items| && offered == hs.items[..|offered|]
    ensures Complete(s, |offered|) && Complete(s, |offered| - 1) && AllPass(results, |offered| - 1)
    ensures match stop
      case None =>
        && Advanced(s, results, |offered|) == s.(last := last', lastHash := lastHash')
        && (|offered| == |hs.items| || |offered| == |bs.items|) && Passes(results(|offered| - 1))
      case Some(r) =>
        && Advanced(s, results, |offered| - 1) == s.(last := last', lastHash := lastHash')
        && r == results(|offered| - 1) && !Passes(r)
  {
    hide Contents, WellFormed, Complete, Advanced, Passes;
    FirstNotEmpty(headers);
    FirstNotEmpty(bodies);
    AdvancedNone(s, results);
    offered, last', lastHash' := [], last, lastHash;
    var i := 0;
    while i < |hs.items| && i < |bs.items|
      invariant i <= |hs.items| && i <= |bs.items| && offered == hs.items[..i]
      invariant Complete(s, i) && Advanced(s, results, i) == s.(last := last', lastHash := lastHash')
      invariant AllPass(results, i)
    {
      OneMoreComplete(s, headers, bodies, i);
      AdvancedOnly(s, results, i);
      AdvancedStep(s, results, i);
      offered := offered + [hs.items[i]];
      var r := results(i);
      if r.Success? && hs.start + i > last' {
        last', lastHash' := hs.start + i, hs.items[i].hash;
      }
      if !Passes(r) { return offered, Some(r), last', lastHash'; }
      i := i + 1;
    }
    FewerComplete(s, i);
    stop := None;
  }

  lemma NothingCollected(s: Sync, results: nat -> ImportResult, unknownFull: bool, head: Head)
    ensures OfferedFrom(s, []) && (!Ready(s) ==> CollectEnds(s, results, unknownFull, head, 0, s))
  {
    hide Ready;
  }

  lemma CollectGivesUp(s: Sync, results: nat -> ImportResult, unknownFull: bool, head: Head, k: nat)
    requires Ready(s) && k > 0 && Complete(s, k) && Complete(s, k - 1) && AllPass(results, k - 1) && !Passes(results(k - 1))
    ensures var a := Advanced(s, results, k - 1);
      CollectEnds(s, results, unknownFull, head, k,
                  if Rejects(results(k - 1)) then Restart(a, head) else Reset(a).(haveCommon := false))
  {
    AdvancedOnly(s, results, k - 1);
    hide Ready, Complete, AllPass, Advanced;
  }

  lemma CollectFinishes(s: Sync, results: nat -> ImportResult, unknownFull: bool, head: Head, k: nat)
    requires Ready(s) && k > 0 && Complete(s, k) && Complete(s, k - 1) && AllPass(results, k - 1) && Passes(results(k - 1))
    requires !Complete(s, k + 1)
    ensures var a := Advanced(s, results, k);
      CollectEnds(s, results, unknownFull, head, k,
                  if unknownFull then Restart(a, head)
                  else Completed(a.(headers := From(a.headers, s.last + 1 + k), bodies := From(a.bodies, s.last + 1 + k))))
  {
    ProcessedIs(s, results, k);
    hide Ready, Complete, AllPass, Advanced, Completed, From, Restart, Processed, Passes, Rejects;
    RestartForgets(s, Advanced(s, results, k), head);
    PassesNotRejects(results(k - 1));
  }

  lemma PassesNotRejects(r: ImportResult)
    ensures Passes(r) ==> !Rejects(r)
  {
  }

  lemma AdvancedMaps(s: Sync, results: nat -> ImportResult, k: nat)
    requires Complete(s, k)
    ensures var a := Advanced(s, results, k); a.headers == s.headers && a.bodies == s.bodies && a.failed == s.failed
  {
    hide Advanced, Complete;
    AdvancedOnly(s, results, k);
  }

  lemma ProcessedIs(s: Sync, results: nat -> ImportResult, k: nat)
    requires Complete(s, k)
    ensures var a, n := Advanced(s, results, k), s.last + 1 + k;
      a.failed == s.failed && Processed(s, results, k) == Completed(a.(headers := From(a.headers, n), bodies := From(a.bodies, n)))
  {
    hide Advanced, Complete, From, Completed;
    AdvancedMaps(s, results, k);
    assert s.last + 1 + k == s.last + k + 1;
  }

  lemma RestartForgets(s: Sync, t: Sync, head: Head)
    requires s.failed == t.failed
    ensures Restart(s, head) == Restart(t, head)
  {
  }

  lemma FirstNotEmpty<T>(m: Runs<T>)
    requires WellFormed(m) && m != []
    ensures m[0].items != []
  {
  }

  lemma AdvancedNone(s: Sync, results: nat -> ImportResult)
    ensures Complete(s, 0) && Advanced(s, results, 0) == s
  {
  }

  lemma AdvancedStep(s: Sync, results: nat -> ImportResult, k: nat)
    requires Complete(s, k) && Complete(s, k + 1)
    ensures s.last + k + 1 in s.headers
    ensures Advanced(s, results, k + 1)
            == if results(k).Success? then s.(last := s.last + k + 1, lastHash := s.headers[s.last + k + 1].hash)
               else Advanced(s, results, k)
    ensures results(k).Success? ==> Passes(results(k))
  {
  }

  /** Where the search for a common header goes on. */
  function SearchPoint(m: Runs<Header>, haveCommon: bool, last: nat): nat {
    if !haveCommon && m != [] && 0 < m[0].start <= last then m[0].start - 1 else last
  }

  /**
    The question and the list that the state before a request leads to; the list has a number that is not asked for
    exactly if one that is on its way lies between its first and its last.
   */
  predicate IsList(m: Runs<Header>, downloading: set<nat>, last: nat, ask: Ask, list: seq<nat>)
    requires WellFormed(m) && ask.AskHeaders?
  {
    list != [] && ask.count == |list| && (ask.start, list) == Gap(m, downloading, last) && SkipsExactly(downloading, (ask.start, list))
  }

  /** The smaller of the last imported number and the one below the lowest held header; below 0 there is no block. */
  method SearchStart(m: Runs<Header>, last: nat) returns (start: nat)
    requires WellFormed(m)
    ensures SearchesFrom(Contents(m), last, start) && start == SearchPoint(m, false, last)
  {
    hide Contents;
    EmptyIff(m);
    start := last;
    if m != [] {
      FirstIsLowest(m, 0);
      forall n: nat ensures n in Contents(m) ==> m[0].start <= n { FirstIsLowest(m, n); }
      if m[0].start > 0 && m[0].start - 1 < start { start := m[0].start - 1; }
    }
  }

  /** The bodies to ask for: those of the first run of headers that are neither held nor on their way. */
  method NeededBodies(m: Runs<Header>, bodies: Runs<Body>, downloading: set<nat>) returns (numbers: seq<nat>, hashes: seq<Hash>)
    requires WellFormed(m) && WellFormed(bodies) && m != []
    ensures |numbers| == |hashes| <= MAX_REQUEST_BODIES
    ensures forall i :: 0 <= i < |numbers| ==>
      numbers[i] in Contents(m) && hashes[i] == Contents(m)[numbers[i]].hash
      && numbers[i] !in Contents(bodies) && numbers[i] !in downloading
    ensures forall n :: n in numbers ==> m[0].start <= n < End(m[0])
    ensures numbers == [] ==> forall n :: m[0].start <= n < End(m[0]) ==> n in Contents(bodies) || n in downloading
  {
    hide Contents, WellFormed;
    numbers, hashes := [], [];
    var index := 0;
    while |numbers| < MAX_REQUEST_BODIES && index < |m[0].items|
      invariant index <= |m[0].items| && |numbers| == |hashes| <= MAX_REQUEST_BODIES
      invariant forall i :: 0 <= i < |numbers| ==>
        numbers[i] in Contents(m) && hashes[i] == Contents(m)[numbers[i]].hash
        && numbers[i] !in Contents(bodies) && numbers[i] !in downloading
      invariant forall n :: n in numbers ==> m[0].start <= n < m[0].start + index
      invariant numbers == [] ==> forall n :: m[0].start <= n < m[0].start + index ==> n in Contents(bodies) || n in downloading
    {
      var block := m[0].start + index;
      FirstRunAt(m, index);
      if block !in downloading && !HaveItem(bodies, block) {
        numbers, hashes := numbers + [block], hashes + [m[0].items[index].hash];
      }
      index := index + 1;
    }
  }

  /** Bodies are wanted in the first run of headers only, if that follows the last imported block. */
  lemma BodyWantedIff(s: Sync, m: Runs<Header>, n: nat)
    requires WellFormed(m) && s.headers == Contents(m)
    ensures BodyWanted(s, n)
            <==> s.haveCommon && InFirst(m, s.last, n) && n !in s.bodies && n !in s.downloadingBodies
  {
    hide Contents, WellFormed, Contiguous, InFirst;
    FirstRunIff(m, s.last, n);
  }

  /** In the first run, which starts right after the given number. */
  predicate InFirst<T>(m: Runs<T>, last: nat, n: nat) {
    m != [] && m[0].start == last + 1 && m[0].start <= n < End(m[0])
  }

  lemma NoBodyWanted(s: Sync, m: Runs<Header>)
    requires WellFormed(m) && s.headers == Contents(m)
    requires s.haveCommon ==> forall n :: InFirst(m, s.last, n) ==> n in s.bodies || n in s.downloadingBodies
    ensures forall n: nat :: !BodyWanted(s, n)
  {
    hide Contents, WellFormed, InFirst, BodyWanted;
    forall n: nat ensures !BodyWanted(s, n) { BodyWantedIff(s, m, n); }
  }

  lemma FirstRunIff<T>(m: Runs<T>, last: nat, n: nat)
    requires WellFormed(m)
    ensures (forall k :: k in Contents(m) ==> last < k) && Contiguous(Contents(m), last + 1, n)
            <==> InFirst(m, last, n)
  {
    hide Contents, WellFormed;
    EmptyIff(m);
    if m != [] {
      FirstIsLowest(m, 0);
      forall k: nat ensures k in Contents(m) ==> m[0].start <= k { FirstIsLowest(m, k); }
      if m[0].start == last + 1 {
        FirstNotEmpty(m);
        FirstRunAt(m, 0);
        ContiguousIs(m, 0, last + 1, n);
      }
    }
    assert Contiguous(Contents(m), last + 1, n) ==> last + 1 in Contents(m);
  }

  /** Between two runs nothing is held. */
  lemma GapNotHeld<T>(m: Runs<T>, next: nat, n: nat)
    requires WellFormed(m) && next < |m| && (next > 0 ==> End(m[next - 1]) <= n) && n < m[next].start
    ensures n !in Contents(m)
  {
    hide Contents, At;
    AtOutside(m, n);
    ContentsAt(m, n);
  }

  // ---------- gaps ----------

  /** The numbers from `from` up to `limit` that are not on their way. */
  function Unmarked(from: nat, limit: nat, downloading: set<nat>): (w: seq<nat>)
    requires from <= limit
    ensures forall n :: n in w <==> from <= n < limit && n !in downloading
    ensures |w| <= limit - from
    decreases limit - from
  {
    if from == limit then []
    else if from in downloading then Unmarked(from + 1, limit, downloading)
    else [from] + Unmarked(from + 1, limit, downloading)
  }

  /** The first of them, or the limit. */
  function SkipMarked(from: nat, limit: nat, downloading: set<nat>): (n: nat)
    requires from <= limit
    ensures from <= n <= limit && (n < limit ==> n !in downloading) && forall i :: from <= i < n ==> i in downloading
    decreases limit - from
  {
    if from < limit && from in downloading then SkipMarked(from + 1, limit, downloading) else from
  }

  function Window(start: nat, next: nat): nat {
    if start + MAX_REQUEST_HEADERS < next then start + MAX_REQUEST_HEADERS else next
  }

  /** Window after window, and gap after gap, up to the first number that is not on its way. */
  function GapFrom(m: Runs<Header>, next: nat, start: nat, downloading: set<nat>): (r: (nat, seq<nat>))
    requires WellFormed(m) && next <= |m| && (next < |m| ==> start <= m[next].start)
    decreases |m| - next, if next < |m| then m[next].start - start else 0
  {
    if next == |m| then (start, [])
    else
      var limit := Window(start, m[next].start);
      var first := SkipMarked(start, limit, downloading);
      var wanted := Unmarked(first, limit, downloading);
      if wanted != [] then (first, wanted)
      else if first >= m[next].start then GapFrom(m, next + 1, End(m[next]), downloading)
      else GapFrom(m, next, first, downloading)
  }

  /** The first number to ask for, and the list of those to put on the peer's list. */
  function Gap(m: Runs<Header>, downloading: set<nat>, last: nat): (nat, seq<nat>)
    requires WellFormed(m)
  {
    if m != [] && last + 1 >= m[0].start then GapFrom(m, 1, End(m[0]), downloading) else GapFrom(m, 0, last + 1, downloading)
  }

  lemma {:induction false} UnmarkedLast(from: nat, limit: nat, downloading: set<nat>)
    requires from <= limit
    ensures var w := Unmarked(from, limit, downloading); w != [] ==> w[|w| - 1] >= from + |w| - 1
    decreases limit - from
  {
    if from < limit { UnmarkedLast(from + 1, limit, downloading); }
  }

  /** All numbers of the list are among the first so many from its start exactly if none of these is on its way. */
  lemma {:induction false} UnmarkedAskedIff(from: nat, limit: nat, downloading: set<nat>)
    requires from <= limit
    ensures var w := Unmarked(from, limit, downloading);
      AllAsked(w, from) <==> forall n :: from <= n < from + |w| ==> n !in downloading
    decreases limit - from
  {
    if from < limit {
      var w, v := Unmarked(from, limit, downloading), Unmarked(from + 1, limit, downloading);
      if from in downloading {
        UnmarkedLast(from + 1, limit, downloading);
        if w != [] { assert w[|w| - 1] in w; }
      } else {
        UnmarkedAskedIff(from + 1, limit, downloading);
        assert w == [from] + v;
        assert AllAsked(w, from) <==> AllAsked(v, from + 1) by {
          if AllAsked(w, from) { forall n | n in v ensures from + 1 <= n < from + 1 + |v| { assert n in w; } }
        }
      }
    }
  }

  /** All numbers of the list are asked for exactly if none that is on its way lies below the last of them. */
  lemma UnmarkedSkipsIff(from: nat, limit: nat, downloading: set<nat>)
    requires from <= limit && Unmarked(from, limit, downloading) != []
    ensures var w := Unmarked(from, limit, downloading);
      AllAsked(w, from) <==> !exists a :: a in downloading && from <= a < w[|w| - 1]
  {
    hide Unmarked;
    var w := Unmarked(from, limit, downloading);
    UnmarkedLast(from, limit, downloading);
    UnmarkedAskedIff(from, limit, downloading);
    assert w[|w| - 1] in w;
    if AllAsked(w, from) {
      forall a | a in downloading ensures !(from <= a < w[|w| - 1]) {}
    } else {
      var n :| from <= n < from + |w| && n in downloading;
      assert from <= n < w[|w| - 1];
    }
  }

  lemma {:induction false} GapFromSkipsIff(m: Runs<Header>, next: nat, start: nat, downloading: set<nat>)
    requires WellFormed(m) && next <= |m| && (next < |m| ==> start <= m[next].start)
    requires GapFrom(m, next, start, downloading).1 != []
    ensures SkipsExactly(downloading, GapFrom(m, next, start, downloading))
    decreases |m| - next, if next < |m| then m[next].start - start else 0
  {
    hide SkipMarked, Unmarked;
    var limit := Window(start, m[next].start);
    var first := SkipMarked(start, limit, downloading);
    if Unmarked(first, limit, downloading) != [] {
      UnmarkedSkipsIff(first, limit, downloading);
    } else if first >= m[next].start {
      if next + 1 < |m| { Neighbours(m, next); }
      GapFromSkipsIff(m, next + 1, End(m[next]), downloading);
    } else {
      GapFromSkipsIff(m, next, first, downloading);
    }
  }

  /** A list has a number that is not asked for exactly if one that is on its way lies between its first and its last. */
  predicate SkipsExactly(downloading: set<nat>, r: (nat, seq<nat>))
    requires r.1 != []
  {
    (exists n :: n in r.1 && !(r.0 <= n < r.0 + |r.1|)) <==> exists a :: a in downloading && r.0 <= a < r.1[|r.1| - 1]
  }

  /** Of every state: its next list has a number that is not asked for exactly if a mark lies inside the list. */
  lemma GapSkipsIff(m: Runs<Header>, downloading: set<nat>, last: nat)
    requires WellFormed(m) && Gap(m, downloading, last).1 != []
    ensures SkipsExactly(downloading, Gap(m, downloading, last))
  {
    hide GapFrom;
    if m != [] && last + 1 >= m[0].start {
      if |m| > 1 { Neighbours(m, 0); }
      GapFromSkipsIff(m, 1, End(m[0]), downloading);
    } else {
      GapFromSkipsIff(m, 0, last + 1, downloading);
    }
  }

  lemma {:induction false} GapFromNeeded(m: Runs<Header>, next: nat, start: nat, downloading: set<nat>)
    requires WellFormed(m) && next <= |m| && (next < |m| ==> start <= m[next].start) && (next > 0 ==> End(m[next - 1]) <= start)
    requires GapFrom(m, next, start, downloading).1 != []
    ensures IsGap(m, downloading, GapFrom(m, next, start, downloading))
    decreases |m| - next, if next < |m| then m[next].start - start else 0
  {
    hide Contents;
    var limit := Window(start, m[next].start);
    var first := SkipMarked(start, limit, downloading);
    var wanted := Unmarked(first, limit, downloading);
    if wanted != [] {
      UnmarkedAskedIff(first, limit, downloading);
      forall n: nat | first <= n < limit ensures n !in Contents(m) { GapNotHeld(m, next, n); }
    } else if first >= m[next].start {
      Neighbours(m, next);
      GapFromNeeded(m, next + 1, End(m[next]), downloading);
    } else {
      GapFromNeeded(m, next, first, downloading);
    }
  }

  /** The list lies where the search goes, below the last run. */
  lemma {:induction false} GapFromWithin(m: Runs<Header>, next: nat, start: nat, downloading: set<nat>, n: nat)
    requires WellFormed(m) && next <= |m| && (next < |m| ==> start <= m[next].start) && n in GapFrom(m, next, start, downloading).1
    ensures m != [] && start <= n < m[|m| - 1].start
    decreases |m| - next, if next < |m| then m[next].start - start else 0
  {
    hide SkipMarked, Unmarked;
    BeforeAll(m, next, |m| - 1);
    var limit := Window(start, m[next].start);
    var first := SkipMarked(start, limit, downloading);
    if Unmarked(first, limit, downloading) == [] {
      if first >= m[next].start {
        if next + 1 < |m| { Neighbours(m, next); }
        GapFromWithin(m, next + 1, End(m[next]), downloading, n);
      } else {
        GapFromWithin(m, next, first, downloading, n);
      }
    }
  }

  /** Where the search begins. */
  function SearchFrom(m: Runs<Header>, last: nat): nat {
    if m != [] && last + 1 >= m[0].start then End(m[0]) else last + 1
  }

  /** The search goes over all that is missing below a held header, from the last imported block or the first run on. */
  lemma SearchedIff(s: Sync, m: Runs<Header>, n: nat)
    requires WellFormed(m) && s.headers == Contents(m) && n !in s.headers && n !in s.downloadingHeaders
    ensures HeaderWanted(s, n) <==> m != [] && SearchFrom(m, s.last) <= n < m[|m| - 1].start
  {
    hide Contents, WellFormed;
    EmptyIff(m);
    if m != [] {
      FirstIsLowest(m, 0);
      forall k: nat ensures k in s.headers ==> m[0].start <= k { FirstIsLowest(m, k); }
      NotInFirst(m, n);
      HeldAbove(m, n);
    }
  }

  lemma NotInFirst(m: Runs<Header>, n: nat)
    requires WellFormed(m) && m != [] && n !in Contents(m)
    ensures m[0].start <= n ==> End(m[0]) <= n
    ensures m[0].start < End(m[0])
  {
    if m[0].start <= n < End(m[0]) { FirstRunAt(m, n - m[0].start); }
  }

  lemma HeldAbove(m: Runs<Header>, n: nat)
    requires WellFormed(m) && m != [] && n !in Contents(m)
    ensures (exists k :: k in Contents(m) && k > n) <==> n < m[|m| - 1].start
  {
    hide Contents;
    var r := m[|m| - 1];
    AtRun(m, |m| - 1, r.start);
    ContentsAt(m, r.start);
    if k :| k in Contents(m) && k > n {
      ContentsAt(m, k);
      if r.start <= n {
        AtRun(m, |m| - 1, n);
        ContentsAt(m, n);
      }
    }
  }

  /** All that a request promises about a list and its first number. */
  ghost predicate IsGap(m: Runs<Header>, downloading: set<nat>, r: (nat, seq<nat>)) {
    && 0 < |r.1| <= MAX_REQUEST_HEADERS && r.1[0] == r.0
    && (forall n :: n in r.1 ==> n !in Contents(m) && n !in downloading)
    && (forall n :: r.0 <= n < r.0 + |r.1| ==> n !in Contents(m))
    && (AllAsked(r.1, r.0) <==> forall n :: r.0 <= n < r.0 + |r.1| ==> n !in downloading)
  }

  lemma {:induction false} GapFromNone(m: Runs<Header>, next: nat, start: nat, downloading: set<nat>, n: nat)
    requires WellFormed(m) && next <= |m| && (next < |m| ==> start <= m[next].start) && (next > 0 ==> End(m[next - 1]) <= start)
    requires GapFrom(m, next, start, downloading).1 == [] && m != [] && start <= n < m[|m| - 1].start && n !in Contents(m)
    ensures n in downloading
    decreases |m| - next, if next < |m| then m[next].start - start else 0
  {
    hide Contents;
    if next < |m| {
      var limit := Window(start, m[next].start);
      var first := SkipMarked(start, limit, downloading);
      assert Unmarked(first, limit, downloading) == [];
      if n >= first {
        if first >= m[next].start {
          if n < End(m[next]) { AtRun(m, next, n); ContentsAt(m, n); }
          Neighbours(m, next);
          if End(m[next]) <= n { GapFromNone(m, next + 1, End(m[next]), downloading, n); }
        } else {
          GapFromNone(m, next, first, downloading, n);
        }
      }
    }
  }

  /** Nothing is asked for only if every missing number, from where the search begins to the last run, is on its way. */
  lemma NothingToAsk(m: Runs<Header>, downloading: set<nat>, last: nat, n: nat)
    requires WellFormed(m) && m != [] && Gap(m, downloading, last).1 == []
    requires SearchFrom(m, last) <= n < m[|m| - 1].start && n !in Contents(m)
    ensures n in downloading
  {
    hide Contents, GapFrom;
    if last + 1 >= m[0].start {
      if |m| > 1 { Neighbours(m, 0); }
      GapFromNone(m, 1, End(m[0]), downloading, n);
    } else {
      GapFromNone(m, 0, last + 1, downloading, n);
    }
  }

  /** The first numbers in a gap before a run of headers that are not on their way. */
  method FindGap(m: Runs<Header>, downloading: set<nat>, last: nat) returns (start: nat, wanted: seq<nat>)
    requires WellFormed(m)
    ensures (start, wanted) == Gap(m, downloading, last)
    ensures wanted != [] ==> IsGap(m, downloading, (start, wanted))
  {
    hide Contents, Unmarked, SkipMarked, IsGap;
    start, wanted := last + 1, [];
    var next := 0;
    if m != [] && start >= m[0].start {
      start, next := End(m[0]), 1;
      if |m| > 1 { Neighbours(m, 0); }
    }
    ghost var next0, start0 := next, start;
    while wanted == [] && next < |m|
      invariant next <= |m| && (next < |m| ==> start <= m[next].start)
      invariant if wanted == [] then GapFrom(m, next, start, downloading) == Gap(m, downloading, last)
                else (start, wanted) == Gap(m, downloading, last)
      decreases |m| - next, if next < |m| then m[next].start - start else 0, if wanted == [] then 1 else 0
    {
      ghost var before := start;
      start, wanted := ScanGap(start, m[next].start, downloading);
      if wanted == [] && start >= m[next].start {
        if next + 1 < |m| { Neighbours(m, next); }
        start, next := End(m[next]), next + 1;
      }
    }
    if wanted != [] { GapFromNeeded(m, next0, start0, downloading); }
  }

  /** Looks at up to the maximal number of places from `from` on, skipping the first ones that are on their way. */
  method ScanGap(from: nat, limit: nat, downloading: set<nat>) returns (start: nat, wanted: seq<nat>)
    requires from <= limit
    ensures start == SkipMarked(from, Window(from, limit), downloading) && start <= limit
    ensures wanted == Unmarked(start, Window(from, limit), downloading)
    ensures wanted == [] && from < limit ==> from < start
  {
    hide Unmarked, SkipMarked;
    var count: nat := if limit - from < MAX_REQUEST_HEADERS then limit - from else MAX_REQUEST_HEADERS;
    var end := from + count;
    start := from;
    while count > 0 && start in downloading
      invariant from <= start && start + count == end
      invariant SkipMarked(start, end, downloading) == SkipMarked(from, end, downloading)
    {
      SkipStep(start, end, downloading);
      start, count := start + 1, count - 1;
    }
    SkipStep(start, end, downloading);
    wanted := [];
    for block := start to end
      invariant wanted + Unmarked(block, end, downloading) == Unmarked(start, end, downloading)
    {
      UnmarkedStep(block, end, downloading);
      if block !in downloading {
        Regroup(wanted, block, Unmarked(block + 1, end, downloading));
        wanted := wanted + [block];
      } else {
        assert [] + Unmarked(block + 1, end, downloading) == Unmarked(block + 1, end, downloading);
      }
    }
    UnmarkedStep(end, end, downloading);
    if start < end { assert start in Unmarked(start, end, downloading); }
  }

  lemma Regroup(a: seq<nat>, n: nat, b: seq<nat>)
    ensures a + ([n] + b) == a + [n] + b
  {
  }

  lemma SkipStep(n: nat, end: nat, downloading: set<nat>)
    requires n <= end
    ensures SkipMarked(n, end, downloading)
            == if n < end && n in downloading then SkipMarked(n + 1, end, downloading) else n
  {
  }

  lemma UnmarkedStep(n: nat, end: nat, downloading: set<nat>)
    requires n <= end
    ensures Unmarked(n, end, downloading)
            == if n == end then [] else (if n in downloading then [] else [n]) + Unmarked(n + 1, end, downloading)
  {
  }

  lemma GapNeeded(m: Runs<Header>, s: Sync, wanted: seq<nat>, start: nat)
    requires WellFormed(m) && s.headers == Contents(m) && wanted != [] && IsGap(m, s.downloadingHeaders, (start, wanted))
    requires (start, wanted) == Gap(m, s.downloadingHeaders, s.last)
    ensures HeadersNeeded(s, wanted, start, |wanted|) && forall n :: n in wanted ==> HeaderWanted(s, n)
  {
    hide Contents, WellFormed, HeaderWanted, GapFrom;
    forall n | n in wanted ensures HeaderWanted(s, n) { ListedWanted(m, s, n); }
  }

  lemma ListedWanted(m: Runs<Header>, s: Sync, n: nat)
    requires WellFormed(m) && s.headers == Contents(m) && n !in s.headers && n !in s.downloadingHeaders
    requires n in Gap(m, s.downloadingHeaders, s.last).1
    ensures HeaderWanted(s, n)
  {
    hide Contents, WellFormed, HeaderWanted, GapFrom;
    if m != [] && s.last + 1 >= m[0].start {
      if |m| > 1 { Neighbours(m, 0); }
      GapFromWithin(m, 1, End(m[0]), s.downloadingHeaders, n);
    } else {
      GapFromWithin(m, 0, s.last + 1, s.downloadingHeaders, n);
    }
    SearchedIff(s, m, n);
  }

  lemma NoneWanted(s: Sync, m: Runs<Header>)
    requires WellFormed(m) && s.headers == Contents(m) && Gap(m, s.downloadingHeaders, s.last).1 == []
    ensures forall n: nat :: !HeaderWanted(s, n)
  {
    hide Contents, WellFormed, Gap, InSearch;
    forall n: nat ensures !HeaderWanted(s, n) {
      if n !in s.headers && n !in s.downloadingHeaders {
        SearchedIff(s, m, n);
        if m != [] && SearchFrom(m, s.last) <= n < m[|m| - 1].start { NothingToAsk(m, s.downloadingHeaders, s.last, n); }
      }
    }
  }

  lemma NumbersWanted(c: Sync, m: Runs<Header>, numbers: seq<nat>, hashes: seq<Hash>)
    requires BodiesNeeded(c, numbers, hashes) && c.haveCommon && m != [] && m[0].start == c.last + 1
    requires forall n :: n in numbers ==> m[0].start <= n < End(m[0])
    requires WellFormed(m) && c.headers == Contents(m)
    ensures forall n :: n in numbers ==> BodyWanted(c, n)
  {
    hide BodyWanted, Contents, WellFormed;
    forall n | n in numbers ensures BodyWanted(c, n) { BodyWantedIff(c, m, n); }
  }

  lemma FullRequest(s: Sync, peer: Peer, numberHash: nat -> Hash)
    ensures Requested(s, peer, true, numberHash, NoAsk, ClearPeer(s, peer).(state := Waiting))
  {
  }

  /** Where the search has got to. */
  ghost predicate SearchedTo(s: Sync, peer: Peer, numberHash: nat -> Hash, t: Sync) {
    var c := ClearPeer(s, peer);
    t == Searched(c, t.last, numberHash) && (!c.haveCommon ==> SearchesFrom(c.headers, c.last, t.last))
  }

  lemma SameMarks(s: Sync, t: Sync)
    requires t.downloadingHeaders == s.downloadingHeaders && t.headerPeers == s.headerPeers
    requires t.downloadingBodies == s.downloadingBodies && t.bodyPeers == s.bodyPeers
    ensures AllOwned(s) == AllOwned(t)
  {
  }

  lemma BodyListOwned(s: Sync, peer: Peer, numbers: seq<nat>)
    requires AllOwned(ClearPeer(s, peer))
    ensures AllOwned(WithBodies(ClearPeer(s, peer), peer, numbers))
  {
    var c := ClearPeer(s, peer);
    GrantedOwned(c.downloadingBodies, c.bodyPeers, peer, numbers);
    hide Owned, Released;
  }

  lemma ListOwned(t: Sync, peer: Peer, wanted: seq<nat>)
    requires AllOwned(t) && peer !in t.headerPeers
    ensures AllOwned(WithHeaders(t, peer, wanted))
  {
    GrantedOwned(t.downloadingHeaders, t.headerPeers, peer, wanted);
    hide Owned;
  }

  lemma ClearedFields(s: Sync, peer: Peer)
    ensures peer !in ClearPeer(s, peer).headerPeers
  {
  }

  lemma OneHeaderRequest(s: Sync, peer: Peer, numberHash: nat -> Hash, t: Sync)
    requires SearchedTo(s, peer, numberHash, t) && !t.haveCommon && forall n: nat :: !BodyWanted(ClearPeer(s, peer), n)
    ensures Requested(s, peer, false, numberHash, AskHeaders(t.last, 1), t)
  {
    hide SearchesFrom, Released, BodyWanted, HeaderWanted;
  }

  lemma NoHeaderRequest(s: Sync, peer: Peer, numberHash: nat -> Hash, t: Sync)
    requires SearchedTo(s, peer, numberHash, t) && t.haveCommon && forall n: nat :: !BodyWanted(ClearPeer(s, peer), n)
    requires forall n: nat :: !HeaderWanted(t, n)
    ensures Requested(s, peer, false, numberHash, NoAsk, t)
  {
    hide SearchesFrom, Released, BodyWanted, HeaderWanted;
  }

  lemma ListRequest(s: Sync, peer: Peer, numberHash: nat -> Hash, t: Sync, wanted: seq<nat>, start: nat)
    requires SearchedTo(s, peer, numberHash, t) && t.haveCommon && HeadersNeeded(t, wanted, start, |wanted|)
    requires (forall n: nat :: !BodyWanted(ClearPeer(s, peer), n)) && forall n :: n in wanted ==> HeaderWanted(t, n)
    ensures Requested(s, peer, false, numberHash, AskHeaders(start, |wanted|), WithHeaders(t, peer, wanted))
  {
    hide SearchesFrom, Released, HeadersNeeded, BodyWanted, HeaderWanted;
  }

  lemma BodyRequest(s: Sync, peer: Peer, numberHash: nat -> Hash, numbers: seq<nat>, hashes: seq<Hash>)
    requires BodiesNeeded(ClearPeer(s, peer), numbers, hashes) && forall n :: n in numbers ==> BodyWanted(ClearPeer(s, peer), n)
    ensures Requested(s, peer, false, numberHash, AskBodies(hashes), WithBodies(ClearPeer(s, peer), peer, numbers))
  {
    hide BodiesNeeded, Released, BodyWanted;
  }

  lemma FirstOfRun(m: Runs<Header>, n: nat)
    requires WellFormed(m) && LowerBound(m, n) < |m|
    ensures m[LowerBound(m, n)].items != []
  {
  }

  /** Each header of the run that is dropped erases the new header's id, which the first time leaves nothing to erase. */
  method EraseId(ids: map<Id, nat>, id: Id, times: nat) returns (r: map<Id, nat>)
    requires times > 0
    ensures r == ids - {id}
  {
    r := ids;
    for i := 0 to times
      invariant r == if i == 0 then ids else ids - {id}
    {
      r := r - {id};
    }
  }

  lemma EmptyIff<T>(m: Runs<T>)
    requires WellFormed(m)
    ensures Contents(m) == map[] <==> m == []
  {
    if m != [] {
      AtRun(m, 0, m[0].start);
      ContentsAt(m, m[0].start);
    }
  }

  method EraseAll(marked: set<nat>, list: seq<nat>) returns (r: set<nat>)
    ensures r == marked - (set n | n in list)
  {
    r := marked;
    for i := 0 to |list|
      invariant r == marked - (set n | n in list[..i])
    {
      r := r - {list[i]};
    }
    assert list[..|list|] == list;
  }

  /** Erases the numbers of a run from both sets of marks. */
  method EraseRun(a: set<nat>, b: set<nat>, n: nat, length: nat, ghost gone: set<nat>) returns (a': set<nat>, b': set<nat>)
    requires forall i :: i in gone <==> n <= i < n + length
    ensures a' == a - gone && b' == b - gone
  {
    a', b' := a, b;
    for i := 0 to length
      invariant a' == a - (set x | x in gone && x < n + i) && b' == b - (set x | x in gone && x < n + i)
    {
      assert n + i in gone;
      a', b' := a' - {n + i}, b' - {n + i};
    }
    assert (set x | x in gone && x < n + length) == gone;
  }

  /** Goes through all peers, dropping the expired ones together with their marks. */
  method Purge(marked: set<nat>, peers: map<Peer, seq<nat>>, expired: set<Peer>) returns (marked': set<nat>, peers': map<Peer, seq<nat>>)
    ensures IsPurged(marked, peers, expired, marked', peers')
  {
    marked', peers' := marked, peers;
    var todo := peers.Keys;
    ghost var done: set<Peer> := {};
    while todo != {}
      invariant todo == peers.Keys - done && todo <= peers'.Keys
      invariant IsPurged(marked, peers, expired * done, marked', peers')
      decreases todo
    {
      var p :| p in todo;
      if p in expired {
        marked' := EraseAll(marked', peers'[p]);
        peers' := peers' - {p};
      }
      todo, done := todo - {p}, done + {p};
    }
  }
}
