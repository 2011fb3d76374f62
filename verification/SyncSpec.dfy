/**
  The download state of chain synchronisation over plain maps from block numbers to headers and bodies,
  and what its steps keep.
 */
module SyncSpec {
  import opened RunMap

  type Hash = nat
  type Peer = nat
  type Body = nat

  /** Stands for a transaction root together with an uncles hash; by it a body finds its header. */
  type Id = nat

  const EMPTY_BODY: Body := 0
  const EMPTY_ID: Id := 0

  datatype Header = Header(hash: Hash, parent: Hash, id: Id)

  /** A header as received. `known` says that the chain or the block queue has the block already. */
  datatype Incoming = Incoming(number: nat, header: Header, known: bool)

  datatype SyncState = NotSynced | Idle | Waiting | Blocks | NewBlocks

  /** `failed` is set when one of the program's assertions fails; nothing happens after that. */
  datatype Sync = Sync(state: SyncState, headers: map<nat, Header>, bodies: map<nat, Body>, ids: map<Id, nat>,
                       haveCommon: bool, last: nat, lastHash: Hash,
                       downloadingHeaders: set<nat>, downloadingBodies: set<nat>,
                       headerPeers: map<Peer, seq<nat>>, bodyPeers: map<Peer, seq<nat>>, failed: bool)

  /** The head of the chain, where a restart begins. */
  datatype Head = Head(number: nat, hash: Hash)

  function Reset(s: Sync): Sync {
    Sync(Idle, map[], map[], map[], s.haveCommon, s.last, s.lastHash, {}, {}, map[], map[], s.failed)
  }

  function Restart(s: Sync, head: Head): Sync {
    Sync(NotSynced, map[], map[], map[], false, head.number, head.hash, {}, {}, map[], map[], s.failed)
  }

  // ---------- ownership of downloads ----------

  predicate OwnedBy(peers: map<Peer, seq<nat>>, n: nat) {
    exists p :: p in peers && n in peers[p]
  }

  /** Every number marked as downloading is on some peer's list. */
  predicate Owned(marked: set<nat>, peers: map<Peer, seq<nat>>) {
    forall n :: n in marked ==> OwnedBy(peers, n)
  }

  predicate AllOwned(s: Sync) {
    Owned(s.downloadingHeaders, s.headerPeers) && Owned(s.downloadingBodies, s.bodyPeers)
  }

  function Released(marked: set<nat>, peers: map<Peer, seq<nat>>, p: Peer): set<nat> {
    if p in peers then marked - (set n | n in peers[p]) else marked
  }

  function ClearPeer(s: Sync, p: Peer): Sync {
    s.(downloadingHeaders := Released(s.downloadingHeaders, s.headerPeers, p), headerPeers := s.headerPeers - {p},
       downloadingBodies := Released(s.downloadingBodies, s.bodyPeers, p), bodyPeers := s.bodyPeers - {p})
  }

  lemma ReleasedOwned(marked: set<nat>, peers: map<Peer, seq<nat>>, p: Peer)
    requires Owned(marked, peers)
    ensures Owned(Released(marked, peers, p), peers - {p})
  {
    forall n | n in Released(marked, peers, p) ensures OwnedBy(peers - {p}, n) {
      assert OwnedBy(peers, n);
      var q :| q in peers && n in peers[q];
      assert q in peers - {p};
    }
  }

  lemma GrantedOwned(marked: set<nat>, peers: map<Peer, seq<nat>>, p: Peer, wanted: seq<nat>)
    requires Owned(marked, peers) && p !in peers
    ensures Owned(marked + (set n | n in wanted), peers[p := wanted])
  {
    var peers' := peers[p := wanted];
    forall n | n in marked + (set n | n in wanted) ensures OwnedBy(peers', n) {
      if n in wanted {
        assert p in peers' && n in peers'[p];
      } else {
        assert OwnedBy(peers, n);
        var q :| q in peers && n in peers[q];
        assert q in peers' && n in peers'[q];
      }
    }
  }

  /** The marks left when all expired peers' lists are released. */
  ghost predicate IsPurged(marked: set<nat>, peers: map<Peer, seq<nat>>, expired: set<Peer>, marked': set<nat>, peers': map<Peer, seq<nat>>) {
    && peers' == peers - expired
    && (forall n :: n in marked' <==> n in marked && forall p :: p in peers && p in expired ==> n !in peers[p])
  }

  /** Once the expired peers are cleared, each number still marked is on the list of a peer that is alive. */
  lemma PurgedOwned(marked: set<nat>, peers: map<Peer, seq<nat>>, expired: set<Peer>, marked': set<nat>, peers': map<Peer, seq<nat>>)
    requires Owned(marked, peers) && IsPurged(marked, peers, expired, marked', peers')
    ensures Owned(marked', peers') && forall p :: p in peers' ==> p !in expired
  {
    forall n | n in marked' ensures OwnedBy(peers', n) {
      assert OwnedBy(peers, n);
      var p :| p in peers && n in peers[p];
      assert p in peers';
    }
  }

  // ---------- headers ----------

  predicate LinkedAt(headers: map<nat, Header>, n: nat) {
    n in headers && n + 1 in headers ==> headers[n + 1].parent == headers[n].hash
  }

  /** Consecutive headers are linked by their hashes. */
  ghost predicate Linked(headers: map<nat, Header>) {
    forall n: nat :: LinkedAt(headers, n)
  }

  /** Held already, or at or below the last imported block. */
  predicate Skipped(s: Sync, h: Incoming) {
    h.number in s.headers || (h.number <= s.last && s.haveCommon)
  }

  predicate FitsBelow(headers: map<nat, Header>, h: Incoming) {
    h.number > 0 && h.number - 1 in headers ==> headers[h.number - 1].hash == h.header.parent
  }

  predicate FitsAbove(headers: map<nat, Header>, h: Incoming) {
    h.number + 1 in headers ==> headers[h.number + 1].parent == h.header.hash
  }

  /** The header contradicts what is below it, so that everything is given up. */
  predicate Mismatched(s: Sync, h: Incoming) {
    && !Skipped(s, h) && !h.known && s.haveCommon
    && (!FitsBelow(s.headers, h) || (h.number == s.last + 1 && h.header.parent != s.lastHash))
  }

  /** The numbers of the contiguous run of headers that n starts. */
  function RunFrom(m: map<nat, Header>, n: nat): set<nat> {
    set k | k in m && Contiguous(m, n, k)
  }

  /** What contradicts a new header from above goes, and everything after it; of the ids, only the new header's own. */
  function CutAbove(s: Sync, h: Incoming): Sync {
    if !s.haveCommon || FitsAbove(s.headers, h) then s
    else
      var gone := RunFrom(s.headers, h.number + 1);
      s.(headers := Below(s.headers, h.number + 1), bodies := Below(s.bodies, h.number + 1), ids := s.ids - {h.header.id},
         downloadingHeaders := s.downloadingHeaders - gone, downloadingBodies := s.downloadingBodies - gone)
  }

  /** The header, and its body if that is empty, are merged; merging the body asserts that none is held. */
  function Place(s: Sync, h: Incoming): Sync {
    var n, id := h.number, h.header.id;
    var clash := id == EMPTY_ID && n in s.bodies;
    s.(headers := s.headers[n := h.header], ids := if id == EMPTY_ID then s.ids else s.ids[id := n],
       bodies := if id == EMPTY_ID && !clash then s.bodies[n := EMPTY_BODY] else s.bodies, failed := s.failed || clash)
  }

  lemma PlaceOnly(s: Sync, h: Incoming)
    ensures var t := Place(s, h);
      && t.state == s.state && t.haveCommon == s.haveCommon && t.last == s.last && t.lastHash == s.lastHash
      && t.downloadingHeaders == s.downloadingHeaders && t.downloadingBodies == s.downloadingBodies
      && t.headerPeers == s.headerPeers && t.bodyPeers == s.bodyPeers && t.headers == s.headers[h.number := h.header]
  {
  }

  function AcceptHeader(s: Sync, h: Incoming): Sync {
    if Skipped(s, h) then s
    else if h.known then s.(haveCommon := true, last := h.number, lastHash := h.header.hash)
    else Place(CutAbove(s, h), h)
  }

  function AcceptAll(s: Sync, batch: seq<Incoming>, head: Head): Sync
    decreases |batch|
  {
    if batch == [] then s
    else if Mismatched(s, batch[0]) then Restart(s, head)
    else
      var t := AcceptHeader(s, batch[0]);
      if t.failed then t else AcceptAll(t, batch[1..], head)
  }

  /** A batch is ignored, but for the peer's request being over, unless blocks are being downloaded. */
  function AfterHeaders(s: Sync, peer: Peer, batch: seq<Incoming>, head: Head): Sync {
    var c := ClearPeer(s, peer);
    if s.state.Blocks? || s.state.NewBlocks? then AcceptAll(c, batch, head) else c
  }

  /** A header that is added without being checked leaves the headers linked only if it happens to fit. */
  lemma HeaderLinkedIff(s: Sync, h: Incoming)
    requires Linked(s.headers) && !Mismatched(s, h)
    ensures Linked(AcceptHeader(s, h).headers)
            <==> s.haveCommon || Skipped(s, h) || h.known || (FitsBelow(s.headers, h) && FitsAbove(s.headers, h))
  {
    if !Skipped(s, h) && !h.known {
      MergedHeaders(s, h);
      var c := CutAbove(s, h).headers;
      hide AcceptHeader, CutAbove;
      InsertLinkedIff(c, h);
    }
  }

  /** Whatever becomes of the body, the header is merged on top of what the cut leaves. */
  lemma MergedHeaders(s: Sync, h: Incoming)
    requires !Skipped(s, h) && !h.known
    ensures var c := CutAbove(s, h).headers;
      && AcceptHeader(s, h).headers == c[h.number := h.header] && h.number !in c
      && (FitsBelow(c, h) <==> FitsBelow(s.headers, h)) && (s.haveCommon ==> FitsAbove(c, h)) && (!s.haveCommon ==> c == s.headers)
      && (Linked(s.headers) ==> Linked(c))
  {
    PlaceOnly(CutAbove(s, h), h);
    hide RunFrom, Linked, Place;
    if Linked(s.headers) { BelowLinked(s.headers, h.number + 1); }
  }

  lemma BelowLinked(hs: map<nat, Header>, n: nat)
    requires Linked(hs)
    ensures Linked(Below(hs, n))
  {
    forall i: nat ensures LinkedAt(Below(hs, n), i) { assert LinkedAt(hs, i); }
  }

  lemma InsertLinkedIff(hs: map<nat, Header>, h: Incoming)
    requires Linked(hs) && h.number !in hs
    ensures Linked(hs[h.number := h.header]) <==> FitsBelow(hs, h) && FitsAbove(hs, h)
  {
    var t := hs[h.number := h.header];
    if FitsBelow(hs, h) && FitsAbove(hs, h) {
      forall n: nat ensures LinkedAt(t, n) { assert LinkedAt(hs, n); }
    } else {
      if !FitsAbove(hs, h) { assert !LinkedAt(t, h.number); }
      if !FitsBelow(hs, h) { assert !LinkedAt(t, h.number - 1); }
    }
  }

  /** Once a common header is known, a batch of any headers keeps the held ones linked. */
  lemma {:induction false} BatchKeepsLinked(s: Sync, batch: seq<Incoming>, head: Head)
    requires s.haveCommon && Linked(s.headers)
    ensures Linked(AcceptAll(s, batch, head).headers)
    decreases |batch|
  {
    hide Linked, Mismatched, AcceptHeader;
    if batch == [] {
    } else if Mismatched(s, batch[0]) {
      NoneLinked();
    } else {
      HeaderLinkedIff(s, batch[0]);
      StillCommon(s, batch[0]);
      if !AcceptHeader(s, batch[0]).failed { BatchKeepsLinked(AcceptHeader(s, batch[0]), batch[1..], head); }
    }
  }

  lemma StillCommon(s: Sync, h: Incoming)
    requires s.haveCommon
    ensures AcceptHeader(s, h).haveCommon
  {
    PlaceOnly(CutAbove(s, h), h);
    hide RunFrom, FitsAbove, Place;
  }

  lemma NoneLinked()
    ensures Linked(map[])
  {
  }

  // ---------- bodies ----------

  /** A body is ignored unless its id leads to a held header; merging it asserts that none is held there. */
  function AcceptBody(s: Sync, id: Id, body: Body): Sync {
    if id !in s.ids || s.ids[id] !in s.headers then s
    else
      var t := s.(ids := s.ids - {id});
      if s.ids[id] in s.bodies then t.(failed := true) else t.(bodies := s.bodies[s.ids[id] := body])
  }

  datatype Item = Item(id: Id, body: Body)

  function AcceptBodies(s: Sync, items: seq<Item>): Sync
    decreases |items|
  {
    if items == [] then s
    else
      var t := AcceptBody(s, items[0].id, items[0].body);
      if t.failed then t else AcceptBodies(t, items[1..])
  }

  function AfterBodies(s: Sync, peer: Peer, items: seq<Item>): Sync {
    var c := ClearPeer(s, peer);
    if s.state.Blocks? || s.state.NewBlocks? then AcceptBodies(c, items) else c
  }

  /** Bodies are only held for headers that are held. */
  predicate Covered(s: Sync) {
    forall n :: n in s.bodies ==> n in s.headers
  }

  // ---------- requesting ----------

  const MAX_REQUEST_HEADERS: nat := 1024
  const MAX_REQUEST_BODIES: nat := 1024

  datatype Ask = NoAsk | AskBodies(hashes: seq<Hash>) | AskHeaders(start: nat, count: nat)

  /**
    Looking for a common header, the number below the lowest held one is computed without a sign: if header 0
    is held, the search does not go below it but starts at the last imported block, which may be held too.
   */
  predicate Underflows(s: Sync) {
    !s.haveCommon && 0 in s.headers && s.last > 1 && s.last in s.headers
  }

  /** Each number is that of a held header whose body is neither held nor on its way. */
  ghost predicate BodiesNeeded(s: Sync, numbers: seq<nat>, hashes: seq<Hash>) {
    && 0 < |numbers| == |hashes| <= MAX_REQUEST_BODIES
    && (forall i :: 0 <= i < |numbers| ==>
          numbers[i] in s.headers && hashes[i] == s.headers[numbers[i]].hash
          && numbers[i] !in s.bodies && numbers[i] !in s.downloadingBodies)
  }

  /** Every number on a list is asked for if as many are asked for, from the first on. */
  predicate AllAsked(numbers: seq<nat>, start: nat) {
    forall n :: n in numbers ==> start <= n < start + |numbers|
  }

  /**
    The numbers put on a peer's list are neither held nor on their way, and as many are asked for, from the first
    on; none of those is held. All that are listed are asked for exactly if none of those asked for was on its way.
   */
  ghost predicate HeadersNeeded(s: Sync, numbers: seq<nat>, start: nat, count: nat) {
    && 0 < |numbers| == count <= MAX_REQUEST_HEADERS && numbers[0] == start
    && (forall n :: n in numbers ==> n !in s.headers && n !in s.downloadingHeaders)
    && (forall n :: start <= n < start + count ==> n !in s.headers)
    && (AllAsked(numbers, start) <==> forall n :: start <= n < start + count ==> n !in s.downloadingHeaders)
  }

  /** A body that a request can ask for: of the first run of headers, if that follows the last imported block. */
  ghost predicate BodyWanted(s: Sync, n: nat) {
    && s.haveCommon && (forall m :: m in s.headers ==> s.last < m) && Contiguous(s.headers, s.last + 1, n)
    && n !in s.bodies && n !in s.downloadingBodies
  }

  /** Where missing headers are looked for: above the last imported block, or above a held header at or below the next one. */
  predicate InSearch(headers: map<nat, Header>, last: nat, n: nat) {
    n > last || exists m :: m in headers && m <= last + 1 && m < n
  }

  /** A header that a request can ask for: missing below a held one, and not on its way. */
  predicate HeaderWanted(s: Sync, n: nat) {
    InSearch(s.headers, s.last, n) && n !in s.headers && n !in s.downloadingHeaders && exists m :: m in s.headers && m > n
  }

  function WithBodies(s: Sync, peer: Peer, numbers: seq<nat>): Sync {
    s.(downloadingBodies := s.downloadingBodies + (set n | n in numbers), bodyPeers := s.bodyPeers[peer := numbers])
  }

  function WithHeaders(s: Sync, peer: Peer, numbers: seq<nat>): Sync {
    s.(downloadingHeaders := s.downloadingHeaders + (set n | n in numbers), headerPeers := s.headerPeers[peer := numbers])
  }

  /** The smaller of the last imported number and the one below the lowest held header, unless that is 0. */
  predicate SearchesFrom(headers: map<nat, Header>, last: nat, start: nat) {
    if headers == map[] || 0 in headers then start == last
    else start <= last && (forall n :: n in headers ==> start < n) && (start == last || start + 1 in headers)
  }

  /** Without a common header the last imported block is taken back to where the search goes on, at most to 1. */
  function Searched(s: Sync, start: nat, numberHash: nat -> Hash): Sync {
    if s.haveCommon then s else s.(last := start, lastHash := numberHash(start), haveCommon := start <= 1)
  }

  /** What a request does to the state, for the question it asks: bodies if any is wanted, else headers if any is. */
  ghost predicate Requested(s: Sync, peer: Peer, queueFull: bool, numberHash: nat -> Hash, ask: Ask, s': Sync) {
    var c := ClearPeer(s, peer);
    var t := Searched(c, s'.last, numberHash);
    if queueFull then ask.NoAsk? && s' == c.(state := Waiting)
    else if ask.AskBodies? then
      && peer in s'.bodyPeers && BodiesNeeded(c, s'.bodyPeers[peer], ask.hashes) && s' == WithBodies(c, peer, s'.bodyPeers[peer])
      && (forall n :: n in s'.bodyPeers[peer] ==> BodyWanted(c, n))
    else
      && (forall n: nat :: !BodyWanted(c, n)) && (!c.haveCommon ==> SearchesFrom(c.headers, c.last, s'.last))
      && if ask.NoAsk? then t.haveCommon && s' == t && forall n: nat :: !HeaderWanted(t, n)
         else if t.haveCommon then
           && peer in s'.headerPeers && HeadersNeeded(t, s'.headerPeers[peer], ask.start, ask.count)
           && s' == WithHeaders(t, peer, s'.headerPeers[peer])
           && (forall n :: n in s'.headerPeers[peer] ==> HeaderWanted(t, n))
         else ask == AskHeaders(s'.last, 1) && s' == t
  }

  /** A request lists and marks a number without asking for it exactly if it asks for one that is on its way already. */
  lemma ListedNotAskedIff(s: Sync, peer: Peer, numberHash: nat -> Hash, ask: Ask, s': Sync)
    requires Requested(s, peer, false, numberHash, ask, s') && ask.AskHeaders? && s'.haveCommon
    ensures peer in s'.headerPeers
    ensures (exists n :: n in s'.headerPeers[peer] && n in s'.downloadingHeaders && !(ask.start <= n < ask.start + ask.count))
            <==> exists n :: ask.start <= n < ask.start + ask.count && n in ClearPeer(s, peer).downloadingHeaders
  {
    hide SearchesFrom, Released;
    assert HeadersNeeded(Searched(ClearPeer(s, peer), s'.last, numberHash), s'.headerPeers[peer], ask.start, ask.count);
  }

  /** A header that is held already is asked for exactly if the subtraction wraps and the last imported block is held. */
  lemma AskedHeldIff(s: Sync, peer: Peer, queueFull: bool, numberHash: nat -> Hash, ask: Ask, s': Sync)
    requires Requested(s, peer, queueFull, numberHash, ask, s') && ask.AskHeaders?
    ensures (exists n :: ask.start <= n < ask.start + ask.count && n in s.headers) <==> Underflows(s)
  {
    if !s.haveCommon && s'.last > 1 {
      assert ask == AskHeaders(s'.last, 1);
      if Underflows(s) { assert ask.start <= s.last < ask.start + ask.count; }
    }
  }

  // ---------- collecting complete blocks ----------

  datatype ImportResult =
    | Success | Malformed | BadChain | FutureTimeKnown | AlreadyInChain | AlreadyKnown | FutureTimeUnknown | UnknownParent

  predicate Passes(r: ImportResult) {
    r.Success? || r.FutureTimeKnown? || r.AlreadyInChain?
  }

  predicate Rejects(r: ImportResult) {
    r.Malformed? || r.BadChain?
  }

  /** The lowest header and the lowest body are both those of the block after the last imported one. */
  predicate Ready(s: Sync) {
    && s.haveCommon && s.last + 1 in s.headers && s.last + 1 in s.bodies
    && (forall n :: n in s.headers ==> n > s.last) && (forall n :: n in s.bodies ==> n > s.last)
  }

  /** The k blocks after the last imported one have both header and body. */
  predicate Complete(s: Sync, k: nat) {
    forall n :: s.last < n <= s.last + k ==> n in s.headers && n in s.bodies
  }

  lemma FewerComplete(s: Sync, k: nat)
    requires Complete(s, k) && k > 0
    ensures Complete(s, k - 1)
  {
  }

  predicate AllPass(results: nat -> ImportResult, k: nat) {
    forall i: nat :: i < k ==> Passes(results(i))
  }

  /** The header after the last imported block, if held, is its child. */
  predicate Continues(s: Sync) {
    s.last + 1 in s.headers ==> s.headers[s.last + 1].parent == s.lastHash
  }

  /**
    The headers at consecutive numbers after the last imported one, each the parent of the next if all held are
    linked; the first is a child of the last imported block if the header held there is.
   */
  ghost predicate OfferedFrom(s: Sync, offered: seq<Header>) {
    && Complete(s, |offered|)
    && (forall i :: 0 <= i < |offered| ==> offered[i] == s.headers[s.last + 1 + i])
    && (Linked(s.headers) ==> forall i :: 0 < i < |offered| ==> offered[i].parent == offered[i - 1].hash)
    && (offered != [] ==> (Continues(s) <==> offered[0].parent == s.lastHash))
  }

  /** The last imported block moves to the latest of the first k blocks that was imported. */
  function Advanced(s: Sync, results: nat -> ImportResult, k: nat): Sync
    requires Complete(s, k)
  {
    if k == 0 then s
    else if results(k - 1).Success? then s.(last := s.last + k, lastHash := s.headers[s.last + k].hash)
    else Advanced(s, results, k - 1)
  }

  lemma {:induction false} AdvancedOnly(s: Sync, results: nat -> ImportResult, k: nat)
    requires Complete(s, k)
    ensures s.last <= Advanced(s, results, k).last <= s.last + k
    ensures Advanced(s, results, k) == s.(last := Advanced(s, results, k).last, lastHash := Advanced(s, results, k).lastHash)
  {
    if k > 0 { AdvancedOnly(s, results, k - 1); }
  }

  /** The processed blocks leave both maps. */
  function Processed(s: Sync, results: nat -> ImportResult, k: nat): Sync
    requires Complete(s, k)
  {
    var t := Advanced(s, results, k).(headers := From(s.headers, s.last + k + 1), bodies := From(s.bodies, s.last + k + 1));
    Completed(t)
  }

  /** With no header left synchronisation is complete; that no body is left either is asserted. */
  function Completed(s: Sync): Sync {
    if s.headers != map[] then s else if s.bodies != map[] then s.(failed := true) else Reset(s)
  }

  /** What collecting does when k blocks have been offered to the queue and answered. */
  ghost predicate CollectEnds(s: Sync, results: nat -> ImportResult, unknownFull: bool, head: Head, k: nat, s': Sync) {
    if !Ready(s) then k == 0 && s' == s
    else
      && k > 0 && Complete(s, k) && Complete(s, k - 1) && AllPass(results, k - 1)
      && var r := results(k - 1);
      if Rejects(r) then s' == Restart(s, head)
      else if !Passes(r) then s' == Reset(Advanced(s, results, k - 1)).(haveCommon := false)
      else !Complete(s, k + 1) && s' == if unknownFull then Restart(s, head) else Processed(s, results, k)
  }

  lemma LinkedPair(headers: map<nat, Header>, n: nat)
    requires Linked(headers) && n in headers && n + 1 in headers
    ensures headers[n + 1].parent == headers[n].hash
  {
    assert LinkedAt(headers, n);
  }

  // ---------- a block that arrives on its own ----------

  /** The block is imported: its number and the run it starts are dropped from both maps. */
  function WithoutBlock(s: Sync, n: nat, hash: Hash): Sync {
    s.(last := if n > s.last then n else s.last, lastHash := if n > s.last then hash else s.lastHash,
       downloadingBodies := s.downloadingBodies - {n}, downloadingHeaders := s.downloadingHeaders - {n},
       headers := WithoutRunFrom(s.headers, n), bodies := WithoutRunFrom(s.bodies, n))
  }

  function NewBlock(s: Sync, n: nat, hash: Hash): Sync {
    Completed(WithoutBlock(s, n, hash))
  }
}
