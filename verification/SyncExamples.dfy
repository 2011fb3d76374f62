/** Runs of synchronisation that lead to states the program does not expect. */
module SyncExamples {
  import opened RunMap
  import opened SyncSpec
  import opened SyncSafety
  import opened SyncRuns
  import opened SyncChecks
  import ChainSyncObject

  /** The state is the last one of a run. */
  ghost predicate Reachable(head: Head, s: Sync) {
    exists states, events :: IsRun(head, states, events) && states[|events|] == s
  }

  lemma ReachStart(head: Head)
    ensures Reachable(head, Start(head))
  {
    var states, events: seq<Event> := [Start(head)], [];
    assert IsRun(head, states, events) && states[|events|] == Start(head);
  }

  lemma ReachNext(head: Head, s: Sync, e: Event, s': Sync)
    requires Reachable(head, s) && Next(s, e, s')
    ensures Reachable(head, s')
  {
    var states, events :| IsRun(head, states, events) && states[|events|] == s;
    var states', events' := states + [s'], events + [e];
    hide Next;
    forall i | 0 <= i < |events'| ensures Next(states'[i], events'[i], states'[i + 1]) {
      if i < |events| { assert Next(states[i], events[i], states[i + 1]); }
    }
    assert IsRun(head, states', events') && states'[|events'|] == s';
  }

  /** A run that has just begun to download, with the chain's head at 10. */
  function Begun(): Sync {
    Start(Head(10, 100)).(state := Blocks)
  }

  lemma BegunReachable()
    ensures Reachable(Head(10, 100), Begun())
  {
    ReachStart(Head(10, 100));
    ReachNext(Head(10, 100), Start(Head(10, 100)), Starts, Begun());
  }

  lemma OneMore(s: Sync, batch: seq<Incoming>, head: Head)
    requires batch != [] && !Mismatched(s, batch[0]) && !AcceptHeader(s, batch[0]).failed
    ensures AcceptAll(s, batch, head) == AcceptAll(AcceptHeader(s, batch[0]), batch[1..], head)
    ensures AcceptAll(s, [], head) == s
  {
  }

  /** The state with common header 10 and the given headers, bodies and ids. */
  function Held(headers: map<nat, Header>, bodies: map<nat, Body>, ids: map<Id, nat>): Sync {
    Begun().(haveCommon := true, headers := headers, bodies := bodies, ids := ids)
  }

  lemma BatchFromBegun(batch: seq<Incoming>, s: Sync)
    requires s == AcceptAll(Begun(), batch, Head(10, 100))
    ensures Reachable(Head(10, 100), s)
  {
    BegunReachable();
    assert ClearPeer(Begun(), 1) == Begun();
    hide AcceptAll;
    ReachNext(Head(10, 100), Begun(), GetsHeaders(1, batch, Head(10, 100)), s);
  }

  /** Nothing is checked before a common header is known: unlinked headers may be held when it is. */
  lemma UncheckedBatch()
    ensures exists s :: Reachable(Head(10, 100), s) && s.haveCommon && !Linked(s.headers)
  {
    var a, b, c := Incoming(5, Header(50, 44, 1), false), Incoming(4, Header(40, 30, 2), false), Incoming(3, Header(30, 20, 3), true);
    var s1 := AcceptHeader(Begun(), a);
    var s2 := AcceptHeader(s1, b);
    var s3 := AcceptHeader(s2, c);
    assert [a, b, c][1..] == [b, c] && [b, c][1..] == [c] && [c][1..] == [];
    OneMore(Begun(), [a, b, c], Head(10, 100));
    OneMore(s1, [b, c], Head(10, 100));
    OneMore(s2, [c], Head(10, 100));
    BatchFromBegun([a, b, c], s3);
    assert !LinkedAt(s3.headers, 4);
  }

  /** Nor is the first block that is offered then a child of the last imported one. */
  lemma UncheckedStart()
    ensures exists s :: Reachable(Head(10, 100), s) && Ready(s) && !Continues(s)
  {
    var h := Incoming(11, Header(110, 999, EMPTY_ID), false);
    var s1 := AcceptHeader(Begun(), h);
    var s2 := AcceptHeader(s1, K);
    assert [h, K][1..] == [K] && [K][1..] == [];
    OneMore(Begun(), [h, K], Head(10, 100));
    OneMore(s1, [K], Head(10, 100));
    BatchFromBegun([h, K], s2);
    hide Reachable;
    assert Ready(s2) && !Continues(s2);
  }

  /** Two made-up headers in one batch are enough to make the subtraction wrap. */
  lemma UnderflowReachable()
    ensures exists s :: Reachable(Head(10, 100), s) && Underflows(s)
  {
    var a, b := Incoming(0, Header(7, 6, 1), false), Incoming(10, Header(9, 8, 2), false);
    var s1 := AcceptHeader(Begun(), a);
    var s2 := AcceptHeader(s1, b);
    assert [a, b][1..] == [b] && [b][1..] == [];
    OneMore(Begun(), [a, b], Head(10, 100));
    OneMore(s1, [b], Head(10, 100));
    BatchFromBegun([a, b], s2);
  }

  // ---------- a stranded body ----------

  const K := Incoming(10, Header(100, 99, 5), true)
  const H11 := Incoming(11, Header(110, 100, 8), false)
  const H12 := Incoming(12, Header(120, 110, 9), false)
  const H13 := Incoming(13, Header(130, 120, EMPTY_ID), false)
  const H20 := Incoming(20, Header(200, 190, 7), false)

  /** Headers 11 to 13, of which only 13 has a body, an empty one. */
  function ThreeHeld(): Sync {
    Held(map[11 := H11.header, 12 := H12.header, 13 := H13.header], map[13 := EMPTY_BODY], map[8 := 11, 9 := 12])
  }

  lemma ThreeSteps()
    ensures var s1 := AcceptHeader(Begun(), K); var s2 := AcceptHeader(s1, H11); var s3 := AcceptHeader(s2, H12);
      && !Mismatched(Begun(), K) && !Mismatched(s1, H11) && !Mismatched(s2, H12) && !Mismatched(s3, H13)
      && !s1.failed && !s2.failed && !s3.failed && AcceptHeader(s3, H13) == ThreeHeld()
  {
  }

  lemma ThreeBatch(rest: seq<Incoming>)
    ensures AcceptAll(Begun(), [K, H11, H12, H13] + rest, Head(10, 100)) == AcceptAll(ThreeHeld(), rest, Head(10, 100))
  {
    ThreeSteps();
    var b := [K, H11, H12, H13] + rest;
    var s1 := AcceptHeader(Begun(), K);
    var s2 := AcceptHeader(s1, H11);
    var s3 := AcceptHeader(s2, H12);
    assert b[1..][1..][1..][1..] == rest;
    hide AcceptHeader, Mismatched, Begun, ThreeHeld;
    OneMore(Begun(), b, Head(10, 100));
    OneMore(s1, b[1..], Head(10, 100));
    OneMore(s2, b[1..][1..], Head(10, 100));
    assert !ThreeHeld().failed by { ThreeNotFailed(); }
    OneMore(s3, b[1..][1..][1..], Head(10, 100));
  }

  lemma ThreeNotFailed()
    ensures !ThreeHeld().failed
  {
  }

  /** The numbers 11 to 13 are a run of headers, but 13 is not in a run of bodies from 11 on. */
  lemma RunOfThree(hs: map<nat, Header>, bs: map<nat, Body>)
    requires (hs.Keys == {11, 12, 13} || hs.Keys == {11, 12, 13, 20}) && bs.Keys == {13}
    ensures WithoutRunFrom(hs, 11).Keys == hs.Keys - {11, 12, 13} && WithoutRunFrom(bs, 11) == bs
  {
    assert Contiguous(hs, 11, 11) && Contiguous(hs, 11, 12) && Contiguous(hs, 11, 13);
    assert 15 !in hs && !Contiguous(hs, 11, 20);
    assert 11 !in bs && !Contiguous(bs, 11, 13);
  }

  /** A block that arrives on its own takes all headers away but not a body further up: the assertion fails. */
  lemma StrandedBodyFails()
    ensures exists s :: Reachable(Head(10, 100), s) && s.failed
  {
    ThreeBatch([]);
    assert [K, H11, H12, H13] + [] == [K, H11, H12, H13];
    BatchFromBegun([K, H11, H12, H13], ThreeHeld());
    FailsHere();
    hide ThreeHeld, Reachable, NewBlock;
    assert Next(ThreeHeld(), Imports(11, 110), NewBlock(ThreeHeld(), 11, 110));
    ReachNext(Head(10, 100), ThreeHeld(), Imports(11, 110), NewBlock(ThreeHeld(), 11, 110));
  }

  lemma FailsHere()
    ensures ThreeHeld().last == 10 && !ThreeHeld().failed && NewBlock(ThreeHeld(), 11, 110).failed
  {
    hide WithoutRunFrom;
    RunOfThree(ThreeHeld().headers, ThreeHeld().bodies);
    assert WithoutRunFrom(ThreeHeld().headers, 11) == map[];
    assert 13 in WithoutRunFrom(ThreeHeld().bodies, 11);
  }

  function FourHeld(): Sync {
    Held(map[11 := H11.header, 12 := H12.header, 13 := H13.header, 20 := H20.header], map[13 := EMPTY_BODY],
         map[8 := 11, 9 := 12, 7 := 20])
  }

  /** What is left of it when block 11 has arrived: header 20, and the body of 13 without its header. */
  function Stranded(): Sync {
    FourHeld().(headers := map[20 := H20.header], last := 11, lastHash := 110)
  }

  lemma StrandedIs()
    ensures AcceptAll(ThreeHeld(), [H20], Head(10, 100)) == FourHeld() && NewBlock(FourHeld(), 11, 110) == Stranded()
  {
    assert [H20][1..] == [];
    OneMore(ThreeHeld(), [H20], Head(10, 100));
    assert AcceptHeader(ThreeHeld(), H20) == FourHeld();
    hide WithoutRunFrom;
    RunOfThree(FourHeld().headers, FourHeld().bodies);
    assert WithoutRunFrom(FourHeld().headers, 11) == map[20 := H20.header] by { KeepsTwenty(FourHeld().headers); }
  }

  lemma KeepsTwenty(hs: map<nat, Header>)
    requires WithoutRunFrom(hs, 11).Keys == {20} && 20 in hs
    ensures WithoutRunFrom(hs, 11) == map[20 := hs[20]]
  {
    hide Contiguous;
  }

  lemma StrandedMeans()
    ensures var s := Stranded(); !s.failed && !Covered(s) && s.headers != map[] && ClearPeer(s, 1) == s && s.state == Blocks
    ensures AcceptHeader(Stranded(), H13).failed && !Mismatched(Stranded(), H13)
    ensures FourHeld().last == 10 && !FourHeld().failed
  {
    assert 13 in Stranded().bodies && 13 !in Stranded().headers && 20 in Stranded().headers;
  }

  lemma FourReachable()
    ensures Reachable(Head(10, 100), FourHeld())
  {
    hide FourHeld, ThreeHeld, AcceptAll;
    ThreeBatch([H20]);
    assert [K, H11, H12, H13] + [H20] == [K, H11, H12, H13, H20];
    StrandedIs();
    BatchFromBegun([K, H11, H12, H13, H20], FourHeld());
  }

  /** With a header left above, the program goes on; the body then stands in the way of its own header. */
  lemma StrandedBodyFailsLater()
    ensures Reachable(Head(10, 100), Stranded()) && !Stranded().failed && !Covered(Stranded())
    ensures Next(Stranded(), GetsHeaders(1, [H13], Head(10, 100)), AcceptHeader(Stranded(), H13)) && AcceptHeader(Stranded(), H13).failed
  {
    hide Reachable, FourHeld, Stranded, NewBlock, AcceptHeader, Mismatched, ClearPeer, Covered;
    FourReachable();
    StrandedIs();
    StrandedMeans();
    assert Next(FourHeld(), Imports(11, 110), Stranded());
    ReachNext(Head(10, 100), FourHeld(), Imports(11, 110), Stranded());
    assert [H13][0] == H13;
  }

  // ---------- a stale id ----------

  const G12 := Incoming(12, Header(121, 999, 7), false)

  /** Header 12 was cut because 11 did not fit below it, and came again with another body; its first id is still there. */
  function Stale(): Sync {
    Held(map[11 := H11.header, 12 := H12.header], map[], map[7 := 12, 8 := 11, 9 := 12])
  }

  lemma StaleSteps()
    ensures var s1 := AcceptHeader(Begun(), K); var s2 := AcceptHeader(s1, G12); var s3 := AcceptHeader(s2, H11);
      && !Mismatched(Begun(), K) && !Mismatched(s1, G12) && !Mismatched(s2, H11) && !Mismatched(s3, H12)
      && !s1.failed && !s2.failed && !s3.failed && AcceptHeader(s3, H12) == Stale()
  {
    var s1 := AcceptHeader(Begun(), K);
    var s2 := AcceptHeader(s1, G12);
    assert s2.headers == map[12 := G12.header] && s2.ids == map[7 := 12] && !FitsAbove(s2.headers, H11);
    assert Below(s2.headers, 12) == map[] && Below(s2.bodies, 12) == map[] && s2.ids - {8} == s2.ids;
    assert s2.downloadingHeaders == {} == s2.downloadingBodies;
    assert CutAbove(s2, H11) == s2.(headers := map[]);
    var s3 := AcceptHeader(s2, H11);
    assert s3 == s2.(headers := map[11 := H11.header], ids := map[7 := 12, 8 := 11]);
  }

  lemma StaleReachable()
    ensures Reachable(Head(10, 100), Stale())
  {
    StaleSteps();
    var b := [K, G12, H11, H12];
    var s1 := AcceptHeader(Begun(), K);
    var s2 := AcceptHeader(s1, G12);
    var s3 := AcceptHeader(s2, H11);
    assert b[1..][1..][1..][1..] == [];
    assert !Stale().failed;
    hide AcceptHeader, Mismatched, Begun, Stale, Reachable;
    OneMore(Begun(), b, Head(10, 100));
    OneMore(s1, b[1..], Head(10, 100));
    OneMore(s2, b[1..][1..], Head(10, 100));
    OneMore(s3, b[1..][1..][1..], Head(10, 100));
    OneMore(Stale(), b, Head(10, 100));
    BatchFromBegun(b, Stale());
  }

  /** The two ids lead to the same number: the second body to arrive finds the place taken. */
  lemma StaleIdFails()
    ensures Reachable(Head(10, 100), Stale()) && !IdsAgree(Stale())
    ensures AfterBodies(Stale(), 1, [Item(9, 1), Item(7, 2)]).failed
  {
    StaleReachable();
    hide Reachable;
    assert Stale().ids[7] == 12 && Stale().headers[12].id == 9;
    var t := AcceptBody(Stale(), 9, 1);
    assert [Item(9, 1), Item(7, 2)][1..] == [Item(7, 2)];
    assert ClearPeer(Stale(), 1) == Stale();
    assert !t.failed && AcceptBody(t, 7, 2).failed;
    assert AcceptBodies(t, [Item(7, 2)]) == AcceptBody(t, 7, 2);
  }

  // ---------- a list without marks ----------

  function OneGap(): Sync {
    Held(map[12 := H12.header], map[], map[9 := 12])
  }

  function Asked(): Sync {
    WithHeaders(OneGap(), 1, [11])
  }

  lemma AskedReachable()
    ensures Reachable(Head(10, 100), Asked())
  {
    var s1 := AcceptHeader(Begun(), K);
    assert [K, H12][1..] == [H12] && [H12][1..] == [];
    OneMore(Begun(), [K, H12], Head(10, 100));
    OneMore(s1, [H12], Head(10, 100));
    assert AcceptHeader(s1, H12) == OneGap();
    OneMore(OneGap(), [H12], Head(10, 100));
    BatchFromBegun([K, H12], OneGap());
    hide Reachable, CanList, Requested;
    OneGapList();
    ListReached(OneGap(), 1, [11], 11);
  }

  lemma OneGapList()
    ensures CanList(OneGap(), 1, [11], 11)
  {
    var s := OneGap();
    hide ClearPeer, BodyWanted;
    NothingCleared(s, 1);
    NoBodies(s);
    assert 12 in s.headers && HeaderWanted(s, 11);
    hide HeaderWanted;
  }

  /** The only header asked for arrives as a block on its own: its mark goes, the list stays, and the check fails. */
  lemma OwnCheckFails()
    ensures exists s :: Reachable(Head(10, 100), s) && !s.failed && !OwnChecks(s, 10)
  {
    AskedReachable();
    hide Reachable;
    var s := Asked();
    assert !Contiguous(s.headers, 11, 12) by { assert 11 !in s.headers; }
    var t := NewBlock(s, 11, 110);
    assert 12 in t.headers && t.downloadingHeaders == {} && 1 in t.headerPeers;
    ReachNext(Head(10, 100), s, Imports(11, 110), t);
  }

  /** A known header above a held one moves the last imported block past it. */
  lemma OldHeaderFails()
    ensures exists s :: Reachable(Head(10, 100), s) && !s.failed && !OwnChecks(s, 10)
                        && exists n :: n in s.headers && n <= s.last
  {
    var k := Incoming(13, Header(130, 120, 4), true);
    var s1 := AcceptHeader(Begun(), H12);
    var s2 := AcceptHeader(s1, k);
    assert [H12, k][1..] == [k] && [k][1..] == [];
    OneMore(Begun(), [H12, k], Head(10, 100));
    OneMore(s1, [k], Head(10, 100));
    OneMore(s2, [k], Head(10, 100));
    BatchFromBegun([H12, k], s2);
    hide Reachable;
    assert 12 in s2.headers && s2.last == 13 && s2.state == Blocks;
  }

  function OneHeld(): Sync {
    Begun().(headers := map[1 := Header(11, 1, 3)], ids := map[3 := 1])
  }

  /** With header 1 held the search for a common header ends at the genesis block, however long the chain is. */
  lemma GenesisIsCommon()
    ensures exists s :: Reachable(Head(10, 100), s) && !s.failed && !OwnChecks(s, 10) && s.haveCommon && s.last == 0
  {
    var h := Incoming(1, Header(11, 1, 3), false);
    assert [h][1..] == [];
    OneMore(Begun(), [h], Head(10, 100));
    assert AcceptHeader(Begun(), h) == OneHeld();
    OneMore(OneHeld(), [h], Head(10, 100));
    BatchFromBegun([h], OneHeld());
    hide Reachable;
    var nh: nat -> Hash := n => 0;
    var t := Searched(OneHeld(), 0, nh);
    assert ClearPeer(OneHeld(), 1) == OneHeld() && 1 in OneHeld().headers && SearchesFrom(OneHeld().headers, 10, 0);
    assert Requested(OneHeld(), 1, false, nh, NoAsk, t);
    ReachNext(Head(10, 100), OneHeld(), Requests(1, false, nh), t);
  }

  /**
    The first unknown header of the search for a common one is at the last imported block, and stays there if the
    request that follows finds the queue full: the search does not go back, and the check fails.
   */
  lemma SearchHeaderFails()
    ensures exists s :: Reachable(Head(10, 100), s) && !s.failed && !OwnChecks(s, 10) && !s.haveCommon && s.state.Waiting?
  {
    var h := Incoming(10, Header(101, 98, 6), false);
    var t := Begun().(headers := map[10 := h.header], ids := map[6 := 10]);
    assert [h][1..] == [];
    OneMore(Begun(), [h], Head(10, 100));
    assert AcceptHeader(Begun(), h) == t;
    OneMore(t, [h], Head(10, 100));
    BatchFromBegun([h], t);
    hide Reachable;
    var s, nh: nat -> Hash := t.(state := Waiting), n => 0;
    assert ClearPeer(t, 1) == t;
    assert Requested(t, 1, true, nh, NoAsk, s);
    ReachNext(Head(10, 100), t, Requests(1, true, nh), s);
    assert 10 in s.headers && s.last == 10;
  }

  // ---------- two gaps ----------

  const H14 := Incoming(14, Header(140, 130, 6), false)
  const H17 := Incoming(17, Header(170, 160, 4), false)

  function Gaps(): Sync {
    Held(map[12 := H12.header, 14 := H14.header, 17 := H17.header], map[], map[9 := 12, 6 := 14, 4 := 17])
  }

  lemma GapSteps()
    ensures var s1 := AcceptHeader(Begun(), K); var s2 := AcceptHeader(s1, H12); var s3 := AcceptHeader(s2, H14);
      && !Mismatched(Begun(), K) && !Mismatched(s1, H12) && !Mismatched(s2, H14) && !Mismatched(s3, H17)
      && !s1.failed && !s2.failed && !s3.failed && AcceptHeader(s3, H17) == Gaps() && !Gaps().failed
  {
  }

  lemma GapsReachable()
    ensures Reachable(Head(10, 100), Gaps())
  {
    GapSteps();
    var b := [K, H12, H14, H17];
    var s1 := AcceptHeader(Begun(), K);
    var s2 := AcceptHeader(s1, H12);
    var s3 := AcceptHeader(s2, H14);
    assert b[1..][1..][1..][1..] == [];
    hide AcceptHeader, Mismatched, Begun, Gaps, Reachable;
    OneMore(Begun(), b, Head(10, 100));
    OneMore(s1, b[1..], Head(10, 100));
    OneMore(s2, b[1..][1..], Head(10, 100));
    OneMore(s3, b[1..][1..][1..], Head(10, 100));
    OneMore(Gaps(), b, Head(10, 100));
    BatchFromBegun(b, Gaps());
  }

  /** Two peers are asked for one header each. */
  function TwoAsked(): Sync {
    Gaps().(downloadingHeaders := {11, 13}, headerPeers := map[1 := [11], 2 := [13]])
  }

  /** A request for the headers of a list, when no body is wanted and a common header is known. */
  lemma ListReached(s: Sync, peer: Peer, numbers: seq<nat>, start: nat)
    requires Reachable(Head(10, 100), s) && CanList(s, peer, numbers, start)
    ensures Requested(s, peer, false, n => 0, AskHeaders(start, |numbers|), WithHeaders(s, peer, numbers))
    ensures Reachable(Head(10, 100), WithHeaders(s, peer, numbers))
  {
    hide Reachable, HeadersNeeded, BodyWanted, HeaderWanted;
    var t := WithHeaders(s, peer, numbers);
    assert Requested(s, peer, false, n => 0, AskHeaders(start, |numbers|), t);
    ReachNext(Head(10, 100), s, Requests(peer, false, n => 0), t);
  }

  lemma NoBodies(s: Sync)
    requires s.last + 1 !in s.headers || (s.last + 1 in s.downloadingBodies && s.last + 2 !in s.headers)
    ensures forall n: nat :: !BodyWanted(s, n)
  {
    forall n: nat ensures !BodyWanted(s, n) {
      assert n > s.last + 1 && Contiguous(s.headers, s.last + 1, n) ==> s.last + 2 in s.headers;
    }
  }

  function FirstAsked(): Sync {
    WithHeaders(Gaps(), 1, [11])
  }

  /** What a request for a list needs. */
  ghost predicate CanList(s: Sync, peer: Peer, numbers: seq<nat>, start: nat) {
    && !s.failed && s.haveCommon && ClearPeer(s, peer) == s
    && HeadersNeeded(s, numbers, start, |numbers|) && (forall n: nat :: !BodyWanted(s, n))
    && (forall n :: n in numbers ==> HeaderWanted(s, n))
  }

  lemma NothingCleared(s: Sync, peer: Peer)
    requires peer !in s.headerPeers && peer !in s.bodyPeers
    ensures ClearPeer(s, peer) == s
  {
  }

  lemma FirstList()
    ensures CanList(Gaps(), 1, [11], 11)
  {
    var s := Gaps();
    hide BodyWanted, ClearPeer;
    NothingCleared(s, 1);
    NoBodies(s);
    assert 17 in s.headers && HeaderWanted(s, 11);
    hide HeaderWanted;
  }

  lemma SecondList()
    ensures CanList(FirstAsked(), 2, [13], 13) && WithHeaders(FirstAsked(), 2, [13]) == TwoAsked()
  {
    var s := FirstAsked();
    hide BodyWanted, ClearPeer;
    NothingCleared(s, 2);
    NoBodies(s);
    assert 17 in s.headers && HeaderWanted(s, 13);
    hide HeaderWanted;
  }

  lemma TwoAskedReachable()
    ensures Reachable(Head(10, 100), TwoAsked())
  {
    hide Gaps, TwoAsked, CanList, Reachable, WithHeaders, Requested;
    GapsReachable();
    FirstList();
    ListReached(Gaps(), 1, [11], 11);
    SecondList();
    ListReached(FirstAsked(), 2, [13], 13);
  }

  /** Header 11, asked for from peer 1, has arrived as a block. */
  function ElevenArrived(): Sync {
    TwoAsked().(last := 11, lastHash := 110, downloadingHeaders := {13})
  }

  lemma ElevenArrives()
    ensures Next(TwoAsked(), Imports(11, 110), ElevenArrived())
  {
    var s := TwoAsked();
    assert 11 !in s.headers && 12 in s.headers;
    assert forall k :: !Contiguous(s.headers, 11, k);
    hide Contiguous;
    assert WithoutRunFrom(s.headers, 11) == s.headers && WithoutRunFrom(s.bodies, 11) == s.bodies;
    hide WithoutRunFrom;
    assert s.downloadingHeaders - {11} == {13};
  }

  lemma AnswerBreaks()
    ensures var s := ElevenArrived(); OwnChecks(s, 10) && !OwnChecks(ClearPeer(s, 2), 10)
    ensures Next(ElevenArrived(), GetsHeaders(2, [], Head(10, 100)), ClearPeer(ElevenArrived(), 2))
  {
    var s := ElevenArrived();
    var u := ClearPeer(s, 2);
    assert u.downloadingHeaders == {} && 1 in u.headerPeers;
    assert 13 in s.downloadingHeaders && 1 in s.headerPeers;
  }

  /** A header that was asked for arrives as a block; then the other peer answers, and a list is left without marks. */
  lemma AnswerFails()
    ensures var s := ElevenArrived();
      && Reachable(Head(10, 100), s) && OwnChecks(s, 10)
      && Reachable(Head(10, 100), ClearPeer(s, 2)) && !OwnChecks(ClearPeer(s, 2), 10)
  {
    hide *;
    TwoAskedReachable();
    ElevenArrives();
    ReachNext(Head(10, 100), TwoAsked(), Imports(11, 110), ElevenArrived());
    AnswerBreaks();
    ReachNext(Head(10, 100), ElevenArrived(), GetsHeaders(2, [], Head(10, 100)), ClearPeer(ElevenArrived(), 2));
  }

  // ---------- a list with a gap ----------

  const G11 := Incoming(11, Header(111, 100, 8), false)

  /** Another header 11 takes 12 and all after it away, 17 comes again, and 13 is still on its way from peer 2. */
  function CutBack(): Sync {
    Held(map[11 := G11.header, 17 := H17.header], map[], map[4 := 17, 6 := 14, 8 := 11, 9 := 12])
      .(downloadingHeaders := {13}, headerPeers := map[2 := [13]])
  }

  /** Before 17 comes again. */
  function CutOnly(): Sync {
    CutBack().(headers := map[11 := G11.header])
  }

  lemma Answered()
    ensures ClearPeer(TwoAsked(), 1) == Gaps().(downloadingHeaders := {13}, headerPeers := map[2 := [13]])
  {
  }

  lemma CutMaps(c: Sync)
    requires c == Gaps().(downloadingHeaders := {13}, headerPeers := map[2 := [13]])
    ensures CutAbove(c, G11) == c.(headers := map[])
  {
    assert 13 !in c.headers;
    assert 13 !in RunFrom(c.headers, 12);
    assert Below(c.headers, 12) == map[] && Below(c.bodies, 12) == map[];
    hide RunFrom, Below;
    assert c.downloadingHeaders - RunFrom(c.headers, 12) == {13} && c.downloadingBodies - RunFrom(c.headers, 12) == {};
    assert !FitsAbove(c.headers, G11) && c.ids - {8} == c.ids;
  }

  lemma CutFirst()
    ensures var c := ClearPeer(TwoAsked(), 1);
      c.state == Blocks && TwoAsked().state == Blocks && !TwoAsked().failed && !Mismatched(c, G11) && AcceptHeader(c, G11) == CutOnly()
  {
    Answered();
    var c := ClearPeer(TwoAsked(), 1);
    CutMaps(c);
    hide ClearPeer, CutAbove;
    assert c.ids[8 := 11] == map[4 := 17, 6 := 14, 8 := 11, 9 := 12];
  }

  lemma CutSecond()
    ensures !CutOnly().failed && !CutBack().failed && !Mismatched(CutOnly(), H17) && AcceptHeader(CutOnly(), H17) == CutBack()
  {
    var t := CutOnly();
    assert t.ids[4 := 17] == t.ids;
    assert t.headers[17 := H17.header] == CutBack().headers;
    assert FitsAbove(t.headers, H17) && CutAbove(t, H17) == t;
    hide CutAbove;
  }

  lemma CutBackReachable()
    ensures Reachable(Head(10, 100), CutBack())
  {
    hide AcceptHeader, Mismatched, TwoAsked, CutBack, CutOnly, Reachable, ClearPeer;
    TwoAskedReachable();
    CutFirst();
    CutSecond();
    var c, b, head := ClearPeer(TwoAsked(), 1), [G11, H17], Head(10, 100);
    assert b[1..][1..] == [];
    OneMore(c, b, head);
    OneMore(CutOnly(), b[1..], head);
    assert AcceptAll(CutBack(), [], head) == CutBack();
    ReachNext(head, TwoAsked(), GetsHeaders(1, b, head), CutBack());
  }

  function BodyAsked(): Sync {
    WithBodies(CutBack(), 3, [11])
  }

  lemma BodyRequested()
    ensures Requested(CutBack(), 3, false, n => 0, AskBodies([111]), BodyAsked()) && !CutBack().failed
  {
    var s := CutBack();
    assert ClearPeer(s, 3) == s;
    assert BodyWanted(s, 11);
    hide BodyWanted;
    assert BodiesNeeded(s, [11], [111]);
    assert BodyAsked().bodyPeers[3] == [11];
  }

  const LISTED: seq<nat> := [12, 14, 15, 16]

  lemma LastNeeded(s: Sync)
    requires s.headers.Keys == {11, 17} && s.downloadingHeaders == {13} && s.last == 10
    ensures HeadersNeeded(s, LISTED, 12, |LISTED|)
    ensures forall n :: n in LISTED ==> HeaderWanted(s, n)
  {
    assert forall n :: n in LISTED ==> 12 <= n <= 16 && n != 13;
    assert 17 in s.headers && 16 in LISTED && !AllAsked(LISTED, 12) && 13 in s.downloadingHeaders;
    assert LISTED[0] == 12 && |LISTED| == 4;
  }

  lemma LastList()
    ensures CanList(BodyAsked(), 4, LISTED, 12)
  {
    var s := BodyAsked();
    assert s.headers.Keys == {11, 17};
    hide BodyWanted, HeaderWanted, HeadersNeeded, ClearPeer;
    LastNeeded(s);
    NoBodies(s);
    NothingCleared(s, 4);
  }

  /** Thirteen is on its way: 12, 14, 15 and 16 are listed and marked, but 12 to 15 are asked for, and 16 is not. */
  lemma ListWithGap()
    ensures Reachable(Head(10, 100), BodyAsked())
    ensures var t := WithHeaders(BodyAsked(), 4, LISTED);
      Requested(BodyAsked(), 4, false, n => 0, AskHeaders(12, 4), t) && Reachable(Head(10, 100), t) && 16 in t.headerPeers[4]
  {
    hide Reachable, Requested, CanList, CutBack, BodyAsked;
    CutBackReachable();
    BodyRequested();
    LastList();
    assert 16 in LISTED && |LISTED| == 4;
    ReachNext(Head(10, 100), CutBack(), Requests(3, false, n => 0), BodyAsked());
    ListReached(BodyAsked(), 4, LISTED, 12);
  }

  /** The search over the runs of that state finds this list. */
  lemma ScanFinds(a: Header, b: Header)
    ensures ChainSyncObject.Gap([Run(11, [a]), Run(17, [b])], {13}, 10) == (12, LISTED)
  {
    var d := {13};
    assert ChainSyncObject.Unmarked(17, 17, d) == [];
    assert ChainSyncObject.Unmarked(16, 17, d) == [16];
    assert ChainSyncObject.Unmarked(15, 17, d) == [15, 16];
    assert ChainSyncObject.Unmarked(14, 17, d) == [14, 15, 16];
    assert ChainSyncObject.Unmarked(13, 17, d) == [14, 15, 16];
    assert ChainSyncObject.Unmarked(12, 17, d) == LISTED;
  }
}
