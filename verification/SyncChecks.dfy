/**
  The checks that synchronisation makes of its own state at run time, and for each step the exact condition on
  the state before it under which they pass after it.
 */
module SyncChecks {
  import opened RunMap
  import opened SyncSpec
  import opened SyncSafety
  import opened SyncRuns

  /** What invariants() checks at run time. `chainNumber` is the number of the chain's head. */
  predicate OwnChecks(s: Sync, chainNumber: nat) {
    && (s.state.Idle? ==> s.headers == map[] && s.bodies == map[])
    && !(!s.state.Idle? && chainNumber > 0 && s.haveCommon && s.last == 0)
    && (!s.state.Idle? ==> forall n :: n in s.headers ==> s.last < n)
    && (s.headerPeers == map[] <==> s.downloadingHeaders == {})
    && ((s.bodyPeers == map[] <==> s.downloadingBodies == {}) || |s.downloadingBodies| > |s.ids|)
  }

  /** Every held header is above the last imported block. */
  predicate Above(s: Sync) {
    forall n :: n in s.headers ==> s.last < n
  }

  /** The common block is not the genesis block. */
  predicate Rooted(s: Sync) {
    s.haveCommon ==> s.last > 0
  }

  /** Peers have lists only while something is marked. */
  predicate Kept(marked: set<nat>, peers: map<Peer, seq<nat>>) {
    peers == map[] || marked != {}
  }

  predicate HeadersKept(s: Sync) {
    Kept(s.downloadingHeaders, s.headerPeers)
  }

  predicate BodiesKept(s: Sync) {
    Kept(s.downloadingBodies, s.bodyPeers)
  }

  /** In every state of every run the program's checks come down to four properties. */
  lemma ChecksMean(head: Head, states: seq<Sync>, events: seq<Event>, i: nat, chainNumber: nat)
    requires IsRun(head, states, events) && i < |states|
    ensures var s := states[i];
      OwnChecks(s, chainNumber)
      <==> Above(s) && (s.state.Idle? || chainNumber == 0 || Rooted(s)) && HeadersKept(s) && BodiesKept(s)
  {
    OwnedInEveryRun(head, states, events, i);
    IdleInEveryRun(head, states, events, i);
    hide IsRun;
    var s := states[i];
    if n :| n in s.downloadingHeaders { assert OwnedBy(s.headerPeers, n); }
    if n :| n in s.downloadingBodies { assert OwnedBy(s.bodyPeers, n); }
  }

  // ---------- one header ----------

  type Guard = (Sync, Incoming, bool) -> bool

  /** Each guard says of one header whether a property holds after it; `ok` says whether it holds before. */
  predicate AboveHeader(s: Sync, h: Incoming, ok: bool) {
    if Skipped(s, h) then ok
    else if h.known then forall n :: n in s.headers ==> h.number < n
    else ok && (s.haveCommon || h.number > s.last)
  }

  predicate RootedHeader(s: Sync, h: Incoming, ok: bool) {
    if !Skipped(s, h) && h.known then h.number > 0 else ok
  }

  /** The header is added, and takes away what does not fit on it. */
  predicate Cuts(s: Sync, h: Incoming) {
    !Skipped(s, h) && !h.known && s.haveCommon && !FitsAbove(s.headers, h)
  }

  /** A mark is left outside a run of headers. */
  predicate LeftOutside(marked: set<nat>, peers: map<Peer, seq<nat>>, gone: set<nat>) {
    peers == map[] || exists n :: n in marked && n !in gone
  }

  predicate HeadersKeptHeader(s: Sync, h: Incoming, ok: bool) {
    if Cuts(s, h) then LeftOutside(s.downloadingHeaders, s.headerPeers, RunFrom(s.headers, h.number + 1)) else ok
  }

  predicate BodiesKeptHeader(s: Sync, h: Incoming, ok: bool) {
    if Cuts(s, h) then LeftOutside(s.downloadingBodies, s.bodyPeers, RunFrom(s.headers, h.number + 1)) else ok
  }

  predicate ContinuesHeader(s: Sync, h: Incoming, ok: bool) {
    if Skipped(s, h) then ok
    else if h.known then FitsAbove(s.headers, h)
    else if h.number == s.last + 1 then h.header.parent == s.lastHash
    else ok
  }

  lemma HeaderAboveIff(s: Sync, h: Incoming)
    ensures Above(AcceptHeader(s, h)) <==> AboveHeader(s, h, Above(s))
  {
    if !Skipped(s, h) && !h.known {
      MergedOnly(s, h);
      hide AcceptHeader, RunFrom;
      var t := AcceptHeader(s, h);
      assert h.number in t.headers;
      if Above(t) {
        forall n | n in s.headers ensures s.last < n { assert n in t.headers || n > h.number; }
      }
    }
  }

  /** What merging a header does to the fields that the checks look at. */
  lemma MergedOnly(s: Sync, h: Incoming)
    requires !Skipped(s, h) && !h.known
    ensures var t := AcceptHeader(s, h);
      && t.headers == (if Cuts(s, h) then Below(s.headers, h.number + 1) else s.headers)[h.number := h.header]
      && t.haveCommon == s.haveCommon && t.last == s.last && t.lastHash == s.lastHash && t.state == s.state
      && t.headerPeers == s.headerPeers && t.bodyPeers == s.bodyPeers
      && var gone := if Cuts(s, h) then RunFrom(s.headers, h.number + 1) else {};
         t.downloadingHeaders == s.downloadingHeaders - gone && t.downloadingBodies == s.downloadingBodies - gone
  {
    PlaceOnly(CutAbove(s, h), h);
    hide Place, RunFrom, Skipped, FitsAbove;
  }

  lemma HeaderRootedIff(s: Sync, h: Incoming)
    ensures Rooted(AcceptHeader(s, h)) <==> RootedHeader(s, h, Rooted(s))
  {
    if !Skipped(s, h) && !h.known {
      MergedOnly(s, h);
      hide AcceptHeader;
    }
  }

  lemma LeftIff(marked: set<nat>, peers: map<Peer, seq<nat>>, gone: set<nat>)
    ensures Kept(marked - gone, peers) <==> LeftOutside(marked, peers, gone)
  {
    if n :| n in marked && n !in gone { assert n in marked - gone; }
  }

  lemma HeaderKeptIff(s: Sync, h: Incoming)
    ensures HeadersKept(AcceptHeader(s, h)) <==> HeadersKeptHeader(s, h, HeadersKept(s))
    ensures BodiesKept(AcceptHeader(s, h)) <==> BodiesKeptHeader(s, h, BodiesKept(s))
  {
    if !Skipped(s, h) && !h.known {
      var gone := if Cuts(s, h) then RunFrom(s.headers, h.number + 1) else {};
      LeftIff(s.downloadingHeaders, s.headerPeers, gone);
      LeftIff(s.downloadingBodies, s.bodyPeers, gone);
      MergedOnly(s, h);
      hide AcceptHeader, RunFrom, LeftOutside;
      assert !Cuts(s, h) ==> s.downloadingHeaders - gone == s.downloadingHeaders && s.downloadingBodies - gone == s.downloadingBodies;
    }
  }

  lemma HeaderContinuesIff(s: Sync, h: Incoming)
    ensures Continues(AcceptHeader(s, h)) <==> ContinuesHeader(s, h, Continues(s))
  {
    if !Skipped(s, h) && !h.known {
      MergedOnly(s, h);
      hide AcceptHeader, RunFrom;
    }
  }

  // ---------- a batch of headers ----------

  /** The guards of the headers of a batch, one after the other, up to one that makes synchronisation start over. */
  predicate Through(s: Sync, batch: seq<Incoming>, ok: bool, guard: Guard)
    decreases |batch|
  {
    if batch == [] then ok
    else if Mismatched(s, batch[0]) then true
    else
      var t := AcceptHeader(s, batch[0]);
      if t.failed then guard(s, batch[0], ok) else Through(t, batch[1..], guard(s, batch[0], ok), guard)
  }

  lemma {:induction false} ThroughIff(s: Sync, batch: seq<Incoming>, head: Head, holds: Sync -> bool, guard: Guard)
    requires forall s, h :: holds(AcceptHeader(s, h)) <==> guard(s, h, holds(s))
    requires forall s :: holds(Restart(s, head))
    ensures holds(AcceptAll(s, batch, head)) <==> Through(s, batch, holds(s), guard)
    decreases |batch|
  {
    hide AcceptHeader, Mismatched, Restart;
    if batch != [] && !Mismatched(s, batch[0]) && !AcceptHeader(s, batch[0]).failed {
      ThroughIff(AcceptHeader(s, batch[0]), batch[1..], head, holds, guard);
    }
  }

  lemma BatchIff(s: Sync, batch: seq<Incoming>, head: Head)
    ensures var t := AcceptAll(s, batch, head);
      && (Above(t) <==> Through(s, batch, Above(s), AboveHeader))
      && (Rooted(t) <==> Through(s, batch, Rooted(s), RootedHeader))
      && (HeadersKept(t) <==> Through(s, batch, HeadersKept(s), HeadersKeptHeader))
      && (BodiesKept(t) <==> Through(s, batch, BodiesKept(s), BodiesKeptHeader))
      && (Continues(t) <==> Through(s, batch, Continues(s), ContinuesHeader))
  {
    hide *;
    forall s ensures var r := Restart(s, head); Above(r) && Rooted(r) && HeadersKept(r) && BodiesKept(r) && Continues(r) { RestartPasses(s, head); }
    forall s, h ensures Above(AcceptHeader(s, h)) <==> AboveHeader(s, h, Above(s)) { HeaderAboveIff(s, h); }
    forall s, h ensures Rooted(AcceptHeader(s, h)) <==> RootedHeader(s, h, Rooted(s)) { HeaderRootedIff(s, h); }
    forall s, h ensures HeadersKept(AcceptHeader(s, h)) <==> HeadersKeptHeader(s, h, HeadersKept(s)) { HeaderKeptIff(s, h); }
    forall s, h ensures BodiesKept(AcceptHeader(s, h)) <==> BodiesKeptHeader(s, h, BodiesKept(s)) { HeaderKeptIff(s, h); }
    forall s, h ensures Continues(AcceptHeader(s, h)) <==> ContinuesHeader(s, h, Continues(s)) { HeaderContinuesIff(s, h); }
    ThroughIff(s, batch, head, Above, AboveHeader);
    ThroughIff(s, batch, head, Rooted, RootedHeader);
    ThroughIff(s, batch, head, HeadersKept, HeadersKeptHeader);
    ThroughIff(s, batch, head, BodiesKept, BodiesKeptHeader);
    ThroughIff(s, batch, head, Continues, ContinuesHeader);
  }

  lemma RestartPasses(s: Sync, head: Head)
    ensures var r := Restart(s, head); Above(r) && Rooted(r) && HeadersKept(r) && BodiesKept(r) && Continues(r)
  {
  }

  // ---------- lists that are released ----------

  /** No other peer has a list, or a mark is left that is not on this peer's. */
  predicate ClearLeaves(marked: set<nat>, peers: map<Peer, seq<nat>>, p: Peer) {
    (forall q :: q in peers ==> q == p) || exists n :: n in marked && (p in peers ==> n !in peers[p])
  }

  lemma ClearKeptIff(marked: set<nat>, peers: map<Peer, seq<nat>>, p: Peer)
    ensures Kept(Released(marked, peers, p), peers - {p}) <==> ClearLeaves(marked, peers, p)
  {
    var marked', peers' := Released(marked, peers, p), peers - {p};
    forall q ensures q in peers' <==> q in peers && q != p {}
    if n :| n in marked && (p in peers ==> n !in peers[p]) { assert n in marked'; }
    if n :| n in marked' { assert n in marked && (p in peers ==> n !in peers[p]); }
    assert peers' == map[] <==> forall q :: q in peers ==> q == p;
  }

  lemma ClearIff(s: Sync, p: Peer)
    ensures var c := ClearPeer(s, p);
      && (HeadersKept(c) <==> ClearLeaves(s.downloadingHeaders, s.headerPeers, p))
      && (BodiesKept(c) <==> ClearLeaves(s.downloadingBodies, s.bodyPeers, p))
      && (Above(c) <==> Above(s)) && (Rooted(c) <==> Rooted(s)) && (Continues(c) <==> Continues(s)) && c.state == s.state
  {
    hide Kept, ClearLeaves, Released;
    ClearKeptIff(s.downloadingHeaders, s.headerPeers, p);
    ClearKeptIff(s.downloadingBodies, s.bodyPeers, p);
  }

  /** No peer is left, or a mark is left that is on no expired peer's list. */
  predicate PurgeLeaves(marked: set<nat>, peers: map<Peer, seq<nat>>, expired: set<Peer>) {
    || (forall p :: p in peers ==> p in expired)
    || exists n :: n in marked && OnNone(peers, expired, n)
  }

  predicate OnNone(peers: map<Peer, seq<nat>>, expired: set<Peer>, n: nat) {
    forall p :: p in peers && p in expired ==> n !in peers[p]
  }

  lemma PurgeKeptIff(marked: set<nat>, peers: map<Peer, seq<nat>>, expired: set<Peer>, marked': set<nat>, peers': map<Peer, seq<nat>>)
    requires IsPurged(marked, peers, expired, marked', peers')
    ensures Kept(marked', peers') <==> PurgeLeaves(marked, peers, expired)
  {
    forall n ensures n in marked' <==> n in marked && OnNone(peers, expired, n) {}
    forall p ensures p in peers' <==> p in peers && p !in expired {}
    assert peers' == map[] <==> forall p :: p in peers ==> p in expired;
    if n :| n in marked && OnNone(peers, expired, n) { assert n in marked'; }
    if n :| n in marked' { assert OnNone(peers, expired, n); }
  }

  // ---------- bodies ----------

  predicate OnlyBodies(s: Sync, t: Sync) {
    t == s.(bodies := t.bodies, ids := t.ids, failed := t.failed)
  }

  lemma {:induction false} BodiesOnly(s: Sync, items: seq<Item>)
    ensures OnlyBodies(s, AcceptBodies(s, items))
    decreases |items|
  {
    if items != [] {
      var t := AcceptBody(s, items[0].id, items[0].body);
      assert OnlyBodies(s, t);
      hide AcceptBody;
      BodiesOnly(t, items[1..]);
    }
  }

  lemma OnlyBodiesIff(s: Sync, t: Sync)
    requires OnlyBodies(s, t)
    ensures Above(t) == Above(s) && Rooted(t) == Rooted(s) && Continues(t) == Continues(s)
    ensures HeadersKept(t) == HeadersKept(s) && BodiesKept(t) == BodiesKept(s) && t.state == s.state
  {
  }

  // ---------- collecting ----------

  /** Collecting stops at the answer to the block with this index. */
  predicate StopsAt(s: Sync, results: nat -> ImportResult, i: nat) {
    Complete(s, i + 1) && AllPass(results, i) && !Passes(results(i))
  }

  predicate ImportsAt(s: Sync, results: nat -> ImportResult, i: nat) {
    Complete(s, i + 1) && AllPass(results, i) && results(i).Success?
  }

  /** Nothing is left to collect after all that is complete now. */
  predicate AllComplete(s: Sync) {
    (forall n :: n in s.headers ==> UpTo(s, n)) && (forall n :: n in s.bodies ==> UpTo(s, n))
  }

  predicate UpTo(s: Sync, n: nat) {
    forall m :: s.last < m <= n ==> m in s.headers && m in s.bodies
  }

  /** Collecting ends in a restart or a new search. */
  ghost predicate Breaks(s: Sync, results: nat -> ImportResult, unknownFull: bool) {
    Ready(s) && (unknownFull || exists i: nat :: StopsAt(s, results, i))
  }

  /** Collecting ends in a new search. */
  ghost predicate SearchesAgain(s: Sync, results: nat -> ImportResult) {
    exists i: nat :: StopsAt(s, results, i) && !Rejects(results(i))
  }

  /** The last of the complete blocks is imported, and the header after it is not its child. */
  ghost predicate EndsUnlinked(s: Sync, results: nat -> ImportResult) {
    exists k: nat :: k > 0 && Complete(s, k) && !Complete(s, k + 1) && results(k - 1).Success? && !LinkedAt(s.headers, s.last + k)
  }

  lemma AdvancedAt(s: Sync, results: nat -> ImportResult, k: nat)
    requires Complete(s, k)
    ensures k > 0 && results(k - 1).Success? ==>
      s.last + k in s.headers && Advanced(s, results, k) == s.(last := s.last + k, lastHash := s.headers[s.last + k].hash)
    ensures k > 0 && !results(k - 1).Success? ==> Advanced(s, results, k).last < s.last + k
  {
    if k > 0 && !results(k - 1).Success? { AdvancedOnly(s, results, k - 1); }
  }

  lemma {:induction false} AdvancedMoves(s: Sync, results: nat -> ImportResult, k: nat)
    requires Complete(s, k)
    ensures Advanced(s, results, k).last > s.last <==> exists i: nat :: i < k && results(i).Success?
  {
    if k > 0 {
      FewerComplete(s, k);
      hide Complete;
      AdvancedMoves(s, results, k - 1);
    }
  }

  /** Collecting ends in a restart or a new search exactly if it breaks, and otherwise with the processed blocks removed. */
  lemma CollectBreaksIff(s: Sync, results: nat -> ImportResult, unknownFull: bool, head: Head, k: nat, s': Sync)
    requires CollectEnds(s, results, unknownFull, head, k, s') && Ready(s)
    ensures Breaks(s, results, unknownFull) ==> s'.headers == map[] && !s'.haveCommon && s'.headerPeers == map[] && s'.bodyPeers == map[]
    ensures Breaks(s, results, unknownFull) ==> (s'.state.Idle? <==> SearchesAgain(s, results))
    ensures !Breaks(s, results, unknownFull) ==>
      k > 0 && Complete(s, k) && !Complete(s, k + 1) && AllPass(results, k) && s' == Processed(s, results, k)
  {
    hide Ready, Complete, AllPass, Processed, Advanced;
    if Passes(results(k - 1)) {
      OneMorePass(results, k);
      forall i: nat ensures !StopsAt(s, results, i) { StopIsLast(s, results, k, i); }
    } else {
      assert StopsAt(s, results, k - 1);
      forall i: nat | StopsAt(s, results, i) ensures i == k - 1 { OneStop(s, results, i, k - 1); }
    }
  }

  lemma OneMorePass(results: nat -> ImportResult, k: nat)
    requires k > 0 && AllPass(results, k - 1) && Passes(results(k - 1))
    ensures AllPass(results, k)
  {
  }

  /** If all that is complete passes, collecting does not stop. */
  lemma StopIsLast(s: Sync, results: nat -> ImportResult, k: nat, i: nat)
    requires !Complete(s, k + 1) && AllPass(results, k)
    ensures !StopsAt(s, results, i)
  {
  }

  lemma OneStop(s: Sync, results: nat -> ImportResult, i: nat, j: nat)
    requires StopsAt(s, results, i) && StopsAt(s, results, j)
    ensures i == j
  {
    hide Passes;
  }

  lemma FinishedIff(s: Sync, k: nat)
    requires Ready(s) && Complete(s, k) && !Complete(s, k + 1)
    ensures AllComplete(s) <==> From(s.headers, s.last + k + 1) == map[] && From(s.bodies, s.last + k + 1) == map[]
  {
    NoneFrom(s.headers, s.last + k + 1);
    NoneFrom(s.bodies, s.last + k + 1);
    forall n: nat ensures UpTo(s, n) <==> n < s.last + k + 1 { UpToIff(s, k, n); }
    hide UpTo;
  }

  lemma UpToIff(s: Sync, k: nat, n: nat)
    requires Complete(s, k) && !Complete(s, k + 1)
    ensures UpTo(s, n) <==> n < s.last + k + 1
  {
  }

  /** What is left after collecting, and whether that completes synchronisation. */
  lemma TrimmedOnly(a: Sync, hs: map<nat, Header>, bs: map<nat, Body>)
    ensures var r := Completed(a.(headers := hs, bodies := bs));
      && r.headers == hs && r.haveCommon == a.haveCommon && r.last == a.last && r.lastHash == a.lastHash
      && var done := hs == map[] && bs == map[];
         && (HeadersKept(r) <==> done || HeadersKept(a)) && (BodiesKept(r) <==> done || BodiesKept(a))
         && (r.state.Idle? <==> done || a.state.Idle?)
  {
  }

  lemma AdvancedKept(s: Sync, results: nat -> ImportResult, k: nat)
    requires Complete(s, k)
    ensures var a := Advanced(s, results, k);
      && HeadersKept(a) == HeadersKept(s) && BodiesKept(a) == BodiesKept(s) && a.state == s.state
      && a.haveCommon == s.haveCommon && s.last <= a.last <= s.last + k
  {
    AdvancedOnly(s, results, k);
    hide Advanced, Complete;
  }

  lemma ProcessedOnly(s: Sync, results: nat -> ImportResult, k: nat)
    requires Complete(s, k)
    ensures var r, a := Processed(s, results, k), Advanced(s, results, k);
      var hs, bs := From(s.headers, s.last + k + 1), From(s.bodies, s.last + k + 1);
      && r.headers == hs && r.haveCommon == s.haveCommon && r.last == a.last && r.lastHash == a.lastHash
      && var done := hs == map[] && bs == map[];
         && (HeadersKept(r) <==> done || HeadersKept(s)) && (BodiesKept(r) <==> done || BodiesKept(s))
         && (r.state.Idle? <==> done || s.state.Idle?)
  {
    hide Advanced, Complete, From, Completed, HeadersKept, BodiesKept;
    AdvancedKept(s, results, k);
    TrimmedOnly(Advanced(s, results, k), From(s.headers, s.last + k + 1), From(s.bodies, s.last + k + 1));
  }

  /** The processed blocks go: all checks but the one for the genesis block depend on what is left only. */
  lemma ProcessedIff(s: Sync, results: nat -> ImportResult, k: nat)
    requires Ready(s) && Complete(s, k) && !Complete(s, k + 1)
    ensures var t := Processed(s, results, k);
      && Above(t) && (HeadersKept(t) <==> AllComplete(s) || HeadersKept(s)) && (BodiesKept(t) <==> AllComplete(s) || BodiesKept(s))
      && (t.state.Idle? <==> AllComplete(s) || s.state.Idle?)
  {
    hide AllComplete, Complete, Advanced, Processed, From, HeadersKept, BodiesKept, Ready;
    FinishedIff(s, k);
    AdvancedKept(s, results, k);
    ProcessedOnly(s, results, k);
    FromAt(s.headers, s.last + k + 1);
  }

  lemma ProcessedRootedIff(s: Sync, results: nat -> ImportResult, k: nat)
    requires Ready(s) && k > 0 && Complete(s, k) && !Complete(s, k + 1) && AllPass(results, k)
    ensures Rooted(Processed(s, results, k)) <==> Rooted(s) || exists i: nat :: ImportsAt(s, results, i)
  {
    hide Processed, Advanced, AllPass, From, HeadersKept, BodiesKept;
    ProcessedOnly(s, results, k);
    AdvancedKept(s, results, k);
    AdvancedMoves(s, results, k);
    forall i: nat ensures ImportsAt(s, results, i) <==> i < k && results(i).Success? { ImportsAtIff(s, results, k, i); }
    hide ImportsAt, Complete;
  }

  lemma ImportsAtIff(s: Sync, results: nat -> ImportResult, k: nat, i: nat)
    requires Complete(s, k) && !Complete(s, k + 1) && AllPass(results, k)
    ensures ImportsAt(s, results, i) <==> i < k && results(i).Success?
  {
  }

  lemma ProcessedContinuesIff(s: Sync, results: nat -> ImportResult, k: nat)
    requires Ready(s) && k > 0 && Complete(s, k) && !Complete(s, k + 1) && AllPass(results, k)
    ensures Continues(Processed(s, results, k)) <==> !EndsUnlinked(s, results)
  {
    hide Advanced, AllPass, Ready, Processed, From, HeadersKept, BodiesKept, Complete;
    AdvancedAt(s, results, k);
    forall j: nat | Complete(s, j) && !Complete(s, j + 1) ensures j == k { SameCount(s, j, k); }
    FromAt(s.headers, s.last + k + 1);
    ProcessedOnly(s, results, k);
  }

  lemma FromAt(hs: map<nat, Header>, n: nat)
    ensures forall m :: m in From(hs, n) ==> m >= n
    ensures n in From(hs, n) <==> n in hs
    ensures n in hs ==> From(hs, n)[n] == hs[n]
  {
  }

  lemma SameCount(s: Sync, j: nat, k: nat)
    requires Complete(s, j) && !Complete(s, j + 1) && Complete(s, k) && !Complete(s, k + 1)
    ensures j == k
  {
  }

  // ---------- requests ----------

  /** Where a request starts from. */
  predicate StartsFrom(s: Sync, start: nat) {
    if s.haveCommon then start == s.last else SearchesFrom(s.headers, s.last, start)
  }

  /** The search for a common header, if there is one, is over, and a header is asked for. */
  ghost predicate AsksHeaders(s: Sync) {
    && (forall n: nat :: !BodyWanted(s, n))
    && exists start: nat, n: nat :: StartsFrom(s, start) && (s.haveCommon || start <= 1) && HeaderWanted(s.(last := start), n)
  }

  ghost predicate AsksBodies(s: Sync) {
    exists n: nat :: BodyWanted(s, n)
  }

  /** Each header that may follow where the search starts from is a child of the chain's block there. */
  ghost predicate SearchContinues(s: Sync, numberHash: nat -> Hash) {
    forall start: nat :: SearchesFrom(s.headers, s.last, start) && start + 1 in s.headers ==> s.headers[start + 1].parent == numberHash(start)
  }

  lemma SearchUnique(headers: map<nat, Header>, last: nat, a: nat, b: nat)
    requires SearchesFrom(headers, last, a) && SearchesFrom(headers, last, b)
    ensures a == b
  {
  }

  /** Requests leave all but the marks and where the search has got to. */
  lemma RequestSearchIff(s: Sync, peer: Peer, queueFull: bool, numberHash: nat -> Hash, ask: Ask, s': Sync)
    requires Requested(s, peer, queueFull, numberHash, ask, s')
    ensures var c := ClearPeer(s, peer);
      var t := if queueFull || ask.AskBodies? then c else Searched(c, s'.last, numberHash);
      && s'.headers == s.headers && s'.last == t.last && s'.lastHash == t.lastHash && s'.haveCommon == t.haveCommon
      && (!queueFull && !ask.AskBodies? && !s.haveCommon ==> SearchesFrom(s.headers, s.last, s'.last))
      && (ask.AskBodies? ==> s.haveCommon) && (s'.state == if queueFull then Waiting else s.state)
  {
    hide HeadersNeeded, SearchesFrom, Released, HeaderWanted, Contiguous;
    if ask.AskBodies? && !queueFull { assert s'.bodyPeers[peer][0] in s'.bodyPeers[peer]; }
  }

  /** The search goes below all held headers unless header 0 is held, and to the genesis block if header 1 is. */
  lemma SearchedIff(s: Sync, start: nat, numberHash: nat -> Hash)
    requires !s.haveCommon && SearchesFrom(s.headers, s.last, start)
    ensures var t := Searched(s, start, numberHash);
      && (Above(t) <==> 0 !in s.headers) && (Rooted(t) <==> s.last > 0 && (0 in s.headers || 1 !in s.headers))
      && (Continues(t) <==> SearchContinues(s, numberHash))
  {
    forall a: nat | SearchesFrom(s.headers, s.last, a) ensures a == start { SearchUnique(s.headers, s.last, a, start); }
  }

  /** The checks on headers depend on these fields only. */
  lemma SameHeaderChecks(s: Sync, t: Sync)
    requires s.headers == t.headers && s.haveCommon == t.haveCommon && s.last == t.last && s.lastHash == t.lastHash
    ensures Above(s) == Above(t) && Rooted(s) == Rooted(t) && Continues(s) == Continues(t)
  {
  }

  lemma RequestAboveIff(s: Sync, peer: Peer, queueFull: bool, numberHash: nat -> Hash, ask: Ask, s': Sync)
    requires Requested(s, peer, queueFull, numberHash, ask, s')
    ensures Above(s') <==> if queueFull || s.haveCommon then Above(s) else 0 !in s.headers
    ensures Rooted(s') <==> if queueFull || s.haveCommon then Rooted(s) else s.last > 0 && (0 in s.headers || 1 !in s.headers)
    ensures Continues(s') <==> if queueFull || s.haveCommon then Continues(s) else SearchContinues(s, numberHash)
  {
    RequestSearchIff(s, peer, queueFull, numberHash, ask, s');
    hide Requested, SearchesFrom, Above, Rooted, Continues, SearchContinues, Released;
    if queueFull || s.haveCommon {
      SameHeaderChecks(s', s);
    } else {
      SearchedIff(s, s'.last, numberHash);
      SameHeaderChecks(s', Searched(s, s'.last, numberHash));
    }
  }

  /** Some header is wanted where the search has got to exactly if the request asks for headers. */
  lemma AsksHeadersIff(c: Sync, start: nat, numberHash: nat -> Hash)
    requires (forall n: nat :: !BodyWanted(c, n)) && StartsFrom(c, start)
    ensures var t := Searched(c, start, numberHash);
      AsksHeaders(c) <==> t.haveCommon && exists n: nat :: HeaderWanted(t, n)
  {
    hide BodyWanted;
    var t := Searched(c, start, numberHash);
    forall a: nat | StartsFrom(c, a) ensures a == start { if !c.haveCommon { SearchUnique(c.headers, c.last, a, start); } }
    forall n: nat ensures HeaderWanted(t, n) <==> HeaderWanted(c.(last := start), n) { hide InSearch; }
    hide HeaderWanted, SearchesFrom;
    if t.haveCommon {
      if n: nat :| HeaderWanted(t, n) { assert HeaderWanted(c.(last := start), n); }
    }
  }

  lemma RequestKeptIff(s: Sync, peer: Peer, queueFull: bool, numberHash: nat -> Hash, ask: Ask, s': Sync)
    requires Requested(s, peer, queueFull, numberHash, ask, s')
    ensures var c := ClearPeer(s, peer);
      && (HeadersKept(s') <==> HeadersKept(c) || (!queueFull && AsksHeaders(c)))
      && (BodiesKept(s') <==> BodiesKept(c) || (!queueFull && AsksBodies(c)))
  {
    var c := ClearPeer(s, peer);
    hide ClearPeer, SearchesFrom, BodyWanted;
    if queueFull {
    } else if ask.AskBodies? {
      hide HeaderWanted;
      var n := s'.bodyPeers[peer][0];
      assert n in s'.bodyPeers[peer] && BodyWanted(c, n) && n in s'.downloadingBodies;
    } else {
      AsksHeadersIff(c, s'.last, numberHash);
      hide HeaderWanted;
      if s'.haveCommon && ask.AskHeaders? {
        var n := s'.headerPeers[peer][0];
        assert n in s'.headerPeers[peer] && n in s'.downloadingHeaders;
      }
    }
  }

  // ---------- a block that arrives on its own ----------

  /** The block's runs are all that is held. */
  predicate AllInRun(s: Sync, n: nat) {
    (forall k :: k in s.headers ==> Contiguous(s.headers, n, k)) && (forall k :: k in s.bodies ==> Contiguous(s.bodies, n, k))
  }

  lemma WithoutBlockIff(s: Sync, n: nat, hash: Hash)
    requires n <= s.last + 1
    ensures var t := WithoutBlock(s, n, hash);
      && (Above(t) <==> forall k :: k in s.headers && k <= s.last ==> Contiguous(s.headers, n, k))
      && (Rooted(t) <==> Rooted(s) || n > 0)
      && (HeadersKept(t) <==> LeftOutside(s.downloadingHeaders, s.headerPeers, {n}))
      && (BodiesKept(t) <==> LeftOutside(s.downloadingBodies, s.bodyPeers, {n}))
      && (AllInRun(s, n) <==> t.headers == map[] && t.bodies == map[])
  {
    NothingWithout(s.headers, n);
    NothingWithout(s.bodies, n);
    LeftIff(s.downloadingHeaders, s.headerPeers, {n});
    LeftIff(s.downloadingBodies, s.bodyPeers, {n});
    WithoutAbove(s.headers, n, s.last);
    hide LeftOutside, Kept, WithoutRunFrom;
  }

  lemma WithoutAbove(hs: map<nat, Header>, n: nat, last: nat)
    requires n <= last + 1
    ensures (forall k :: k in WithoutRunFrom(hs, n) ==> (if n > last then n else last) < k)
            <==> forall k :: k in hs && k <= last ==> Contiguous(hs, n, k)
  {
    if n in hs { assert Contiguous(hs, n, n); }
    forall k | k in hs && k <= last && !Contiguous(hs, n, k) ensures k in WithoutRunFrom(hs, n) {}
  }

  /** The header after the block, or after the last imported one, is its child. */
  predicate ImportContinues(s: Sync, n: nat, hash: Hash) {
    if n <= s.last then Continues(s) || Contiguous(s.headers, n, s.last + 1)
    else n !in s.headers && n + 1 in s.headers ==> s.headers[n + 1].parent == hash
  }

  lemma WithoutContinuesIff(s: Sync, n: nat, hash: Hash)
    requires n <= s.last + 1
    ensures Continues(WithoutBlock(s, n, hash)) <==> ImportContinues(s, n, hash)
  {
    var hs := WithoutRunFrom(s.headers, n);
    assert Contiguous(s.headers, n, n + 1) <==> n in s.headers && n + 1 in s.headers;
    hide Contiguous;
    var m := if n <= s.last then s.last + 1 else n + 1;
    assert m in hs <==> m in s.headers && !Contiguous(s.headers, n, m);
  }

  lemma NewBlockIff(s: Sync, n: nat, hash: Hash)
    requires n <= s.last + 1
    ensures var t := NewBlock(s, n, hash);
      && (Above(t) <==> forall k :: k in s.headers && k <= s.last ==> Contiguous(s.headers, n, k))
      && (Rooted(t) <==> Rooted(s) || n > 0)
      && (HeadersKept(t) <==> AllInRun(s, n) || LeftOutside(s.downloadingHeaders, s.headerPeers, {n}))
      && (BodiesKept(t) <==> AllInRun(s, n) || LeftOutside(s.downloadingBodies, s.bodyPeers, {n}))
      && (Continues(t) <==> ImportContinues(s, n, hash)) && (t.state.Idle? <==> AllInRun(s, n) || s.state.Idle?)
  {
    WithoutBlockIff(s, n, hash);
    WithoutContinuesIff(s, n, hash);
    var a := WithoutBlock(s, n, hash);
    assert a.state == s.state;
    hide WithoutBlock, AllInRun, LeftOutside, ImportContinues, Completed, HeadersKept, BodiesKept, Contiguous;
    TrimmedOnly(a, a.headers, a.bodies);
    assert a.(headers := a.headers, bodies := a.bodies) == a;
    SameHeaderChecks(Completed(a), a);
  }

  // ---------- every step ----------

  /** What the checks look at; `idle` says that no synchronisation is going on. */
  datatype Checks = Checks(above: bool, rooted: bool, headersKept: bool, bodiesKept: bool, continues: bool, idle: bool)

  function ChecksOf(s: Sync): Checks {
    Checks(Above(s), Rooted(s), HeadersKept(s), BodiesKept(s), Continues(s), s.state.Idle?)
  }

  /** All checks pass; on an idle state, or an empty chain, the common block may be the genesis block. */
  predicate Pass(c: Checks, chainNumber: nat) {
    c.above && (c.idle || chainNumber == 0 || c.rooted) && c.headersKept && c.bodiesKept
  }

  function AfterClear(s: Sync, p: Peer): Checks {
    ChecksOf(s).(headersKept := ClearLeaves(s.downloadingHeaders, s.headerPeers, p),
                 bodiesKept := ClearLeaves(s.downloadingBodies, s.bodyPeers, p))
  }

  function AfterBatch(s: Sync, p: Peer, batch: seq<Incoming>): Checks {
    var c, k := ClearPeer(s, p), AfterClear(s, p);
    if !s.state.Blocks? && !s.state.NewBlocks? then k
    else Checks(Through(c, batch, k.above, AboveHeader), Through(c, batch, k.rooted, RootedHeader),
                Through(c, batch, k.headersKept, HeadersKeptHeader), Through(c, batch, k.bodiesKept, BodiesKeptHeader),
                Through(c, batch, k.continues, ContinuesHeader), false)
  }

  ghost function AfterCollect(s: Sync, results: nat -> ImportResult, unknownFull: bool): Checks {
    var k := ChecksOf(s);
    if !Ready(s) then k
    else if Breaks(s, results, unknownFull) then Checks(true, true, true, true, true, SearchesAgain(s, results))
    else Checks(true, k.rooted || exists i: nat :: ImportsAt(s, results, i),
                k.headersKept || AllComplete(s), k.bodiesKept || AllComplete(s), !EndsUnlinked(s, results), k.idle || AllComplete(s))
  }

  ghost function AfterRequest(s: Sync, p: Peer, queueFull: bool, numberHash: nat -> Hash): Checks {
    var k := AfterClear(s, p);
    if queueFull then k.(idle := false)
    else
      var c := ClearPeer(s, p);
      var kept := k.(headersKept := k.headersKept || AsksHeaders(c), bodiesKept := k.bodiesKept || AsksBodies(c));
      if s.haveCommon then kept
      else kept.(above := 0 !in s.headers, rooted := s.last > 0 && (0 in s.headers || 1 !in s.headers),
                 continues := SearchContinues(s, numberHash))
  }

  function AfterImport(s: Sync, n: nat, hash: Hash): Checks {
    var all := AllInRun(s, n);
    Checks(forall k :: k in s.headers && k <= s.last ==> Contiguous(s.headers, n, k), Rooted(s) || n > 0,
           all || LeftOutside(s.downloadingHeaders, s.headerPeers, {n}), all || LeftOutside(s.downloadingBodies, s.bodyPeers, {n}),
           ImportContinues(s, n, hash), all || s.state.Idle?)
  }

  /** The outcome of all checks after a step, from the state before it. */
  ghost function ChecksAfter(s: Sync, e: Event): Checks {
    match e
    case Starts => ChecksOf(s).(idle := false)
    case GetsHeaders(peer, batch, head) => AfterBatch(s, peer, batch)
    case GetsBodies(peer, items) => AfterClear(s, peer)
    case Collects(results, unknownFull, head) => AfterCollect(s, results, unknownFull)
    case Requests(peer, queueFull, numberHash) => AfterRequest(s, peer, queueFull, numberHash)
    case LosesPeers(expired) =>
      ChecksOf(s).(headersKept := PurgeLeaves(s.downloadingHeaders, s.headerPeers, expired),
                   bodiesKept := PurgeLeaves(s.downloadingBodies, s.bodyPeers, expired))
    case Imports(number, hash) => AfterImport(s, number, hash)
    case Resets => Checks(true, Rooted(s), true, true, true, true)
    case Restarts(head) => Checks(true, true, true, true, true, false)
  }

  lemma {:induction false} BatchNotIdle(s: Sync, batch: seq<Incoming>, head: Head)
    requires !s.state.Idle?
    ensures !AcceptAll(s, batch, head).state.Idle?
    decreases |batch|
  {
    if batch != [] && !Mismatched(s, batch[0]) {
      HeaderNotIdle(s, batch[0]);
      hide AcceptHeader;
      BatchNotIdle(AcceptHeader(s, batch[0]), batch[1..], head);
    }
  }

  lemma HeaderNotIdle(s: Sync, h: Incoming)
    ensures AcceptHeader(s, h).state == s.state
  {
    if !Skipped(s, h) && !h.known { MergedOnly(s, h); }
    hide Place, CutAbove;
  }

  lemma BatchChecks(s: Sync, p: Peer, batch: seq<Incoming>, head: Head)
    ensures ChecksOf(AfterHeaders(s, p, batch, head)) == AfterBatch(s, p, batch)
  {
    var c := ClearPeer(s, p);
    ClearIff(s, p);
    hide ClearPeer, Above, Rooted, HeadersKept, BodiesKept, Continues, ClearLeaves, Through, AcceptAll;
    if s.state.Blocks? || s.state.NewBlocks? {
      BatchIff(c, batch, head);
      BatchNotIdle(c, batch, head);
    }
  }

  lemma BodyChecks(s: Sync, p: Peer, items: seq<Item>)
    ensures ChecksOf(AfterBodies(s, p, items)) == AfterClear(s, p)
  {
    var c := ClearPeer(s, p);
    ClearIff(s, p);
    hide ClearPeer, Above, Rooted, HeadersKept, BodiesKept, Continues, ClearLeaves, AcceptBodies;
    BodiesOnly(c, items);
    OnlyBodiesIff(c, AcceptBodies(c, items));
  }

  lemma CollectChecks(s: Sync, results: nat -> ImportResult, unknownFull: bool, head: Head, k: nat, s': Sync)
    requires CollectEnds(s, results, unknownFull, head, k, s')
    ensures ChecksOf(s') == AfterCollect(s, results, unknownFull)
  {
    if !Ready(s) {
      hide Above, Rooted, HeadersKept, BodiesKept, Continues;
    } else {
      CollectBreaksIff(s, results, unknownFull, head, k, s');
      hide CollectEnds, Ready, Complete, AllPass, Breaks, Processed, AllComplete, EndsUnlinked, SearchesAgain;
      if !Breaks(s, results, unknownFull) {
        ProcessedIff(s, results, k);
        ProcessedRootedIff(s, results, k);
        ProcessedContinuesIff(s, results, k);
        hide Above, Rooted, HeadersKept, BodiesKept, Continues, ImportsAt;
      }
    }
  }

  lemma RequestChecks(s: Sync, p: Peer, queueFull: bool, numberHash: nat -> Hash, ask: Ask, s': Sync)
    requires Requested(s, p, queueFull, numberHash, ask, s')
    ensures ChecksOf(s') == AfterRequest(s, p, queueFull, numberHash)
  {
    hide ClearPeer, Above, Rooted, HeadersKept, BodiesKept, Continues, ClearLeaves, AsksHeaders, AsksBodies, SearchContinues, Requested;
    ClearIff(s, p);
    RequestAboveIff(s, p, queueFull, numberHash, ask, s');
    RequestKeptIff(s, p, queueFull, numberHash, ask, s');
    RequestSearchIff(s, p, queueFull, numberHash, ask, s');
  }

  lemma PurgeChecks(s: Sync, expired: set<Peer>, s': Sync)
    requires Purged(s, expired, s')
    ensures ChecksOf(s') == ChecksAfter(s, LosesPeers(expired))
  {
    PurgeKeptIff(s.downloadingHeaders, s.headerPeers, expired, s'.downloadingHeaders, s'.headerPeers);
    PurgeKeptIff(s.downloadingBodies, s.bodyPeers, expired, s'.downloadingBodies, s'.bodyPeers);
    hide Kept, PurgeLeaves, IsPurged, Above, Rooted, Continues;
    SameHeaderChecks(s', s);
  }

  lemma ImportChecks(s: Sync, n: nat, hash: Hash)
    requires n <= s.last + 1
    ensures ChecksOf(NewBlock(s, n, hash)) == AfterImport(s, n, hash)
  {
    NewBlockIff(s, n, hash);
    hide NewBlock, Above, Rooted, HeadersKept, BodiesKept, Continues, AllInRun, LeftOutside, ImportContinues, Contiguous;
  }

  lemma PlainChecks(s: Sync, head: Head)
    ensures ChecksOf(s.(state := Blocks)) == ChecksAfter(s, Starts)
    ensures ChecksOf(Reset(s)) == ChecksAfter(s, Resets) && ChecksOf(Restart(s, head)) == ChecksAfter(s, Restarts(head))
    ensures ChecksOf(Start(head)) == Checks(true, true, true, true, true, true)
  {
  }

  /** Of every step: all checks after it, from the state before it. */
  lemma NextChecks(s: Sync, e: Event, s': Sync)
    requires Next(s, e, s')
    ensures ChecksOf(s') == ChecksAfter(s, e)
  {
    hide ChecksOf, AfterHeaders, AfterBodies, CollectEnds, Requested, Purged, NewBlock, Reset, Restart, AfterBatch, AfterClear, AfterCollect,
      AfterRequest, AfterImport, PurgeLeaves;
    match e
    case Starts => PlainChecks(s, Head(0, 0));
    case GetsHeaders(peer, batch, head) => BatchChecks(s, peer, batch, head);
    case GetsBodies(peer, items) => BodyChecks(s, peer, items);
    case Collects(results, unknownFull, head) =>
      var k :| CollectEnds(s, results, unknownFull, head, k, s');
      CollectChecks(s, results, unknownFull, head, k, s');
    case Requests(peer, queueFull, numberHash) =>
      var ask :| Requested(s, peer, queueFull, numberHash, ask, s');
      RequestChecks(s, peer, queueFull, numberHash, ask, s');
    case LosesPeers(expired) => PurgeChecks(s, expired, s');
    case Imports(number, hash) => ImportChecks(s, number, hash);
    case Resets => PlainChecks(s, Head(0, 0));
    case Restarts(head) => PlainChecks(s, head);
  }

  /** In every run all checks hold at first, and after each step as the state before it says. */
  lemma ChecksInEveryRun(head: Head, states: seq<Sync>, events: seq<Event>, i: nat)
    requires IsRun(head, states, events) && i < |states|
    ensures ChecksOf(states[i])
            == if i == 0 then Checks(true, true, true, true, true, true) else ChecksAfter(states[i - 1], events[i - 1])
  {
    hide ChecksOf, ChecksAfter, Next;
    if i == 0 {
      PlainChecks(states[0], head);
    } else {
      assert Next(states[i - 1], events[i - 1], states[i - 1 + 1]);
      NextChecks(states[i - 1], events[i - 1], states[i]);
    }
  }

  /** In every run the program's checks pass after a step exactly if the state before it meets the step's conditions. */
  lemma OwnChecksInEveryRun(head: Head, states: seq<Sync>, events: seq<Event>, i: nat, chainNumber: nat)
    requires IsRun(head, states, events) && i < |states|
    ensures OwnChecks(states[i], chainNumber) <==> i == 0 || Pass(ChecksAfter(states[i - 1], events[i - 1]), chainNumber)
  {
    hide IsRun, OwnChecks, ChecksAfter;
    ChecksMean(head, states, events, i, chainNumber);
    ChecksInEveryRun(head, states, events, i);
  }

  // ---------- which steps can break a check ----------

  /** Only headers make a held one too old, and only headers or the search make the genesis block the common one. */
  lemma OnlyTheseBreak(s: Sync, e: Event, s': Sync)
    requires Next(s, e, s')
    ensures Above(s) && !Above(s') ==> e.GetsHeaders?
    ensures Rooted(s) && !Rooted(s') ==> e.GetsHeaders? || (e.Requests? && !s.haveCommon)
    ensures (HeadersKept(s) && !HeadersKept(s')) || (BodiesKept(s) && !BodiesKept(s')) ==>
      !e.Starts? && !e.Collects? && !e.Resets? && !e.Restarts?
    ensures Continues(s) && !Continues(s') ==>
      e.GetsHeaders? || (e.Requests? && !s.haveCommon) || (e.Imports? && e.number == s.last + 1) || (e.Collects? && !Linked(s.headers))
  {
    NextChecks(s, e, s');
    hide Next, AfterBatch, AsksHeaders, AsksBodies, Contiguous, ClearPeer;
    match e
    case Requests(peer, queueFull, numberHash) =>
      hide SearchContinues, ClearLeaves;
    case _ =>
  }

  /** In every run no held header is ever too old exactly if every batch of headers meets its guards. */
  lemma {:induction false} AboveInEveryRunIff(head: Head, states: seq<Sync>, events: seq<Event>, n: nat)
    requires IsRun(head, states, events) && n <= |events|
    ensures (forall i :: 0 <= i <= n ==> Above(states[i])) <==> forall i :: 0 <= i < n ==> BatchAbove(states[i], events[i])
  {
    hide Next, Above, BatchAbove;
    if n == 0 {
      ChecksInEveryRun(head, states, events, 0);
    } else {
      AboveInEveryRunIff(head, states, events, n - 1);
      assert Next(states[n - 1], events[n - 1], states[n - 1 + 1]);
      if Above(states[n - 1]) { AboveStepIff(states[n - 1], events[n - 1], states[n]); }
    }
  }

  predicate BatchAbove(s: Sync, e: Event) {
    e.GetsHeaders? && (s.state.Blocks? || s.state.NewBlocks?) ==> Through(ClearPeer(s, e.peer), e.batch, true, AboveHeader)
  }

  lemma AboveStepIff(s: Sync, e: Event, s': Sync)
    requires Next(s, e, s') && Above(s)
    ensures Above(s') <==> BatchAbove(s, e)
  {
    NextChecks(s, e, s');
    OnlyTheseBreak(s, e, s');
    hide Next, Above, Through, ClearPeer;
    if e.GetsHeaders? { hide AfterClear; }
  }
}
