/**
  What the steps of synchronisation keep, and exactly when one of the program's own assertions fails:
  mergeInto's, that the number is not held yet, and the two that no body is left when no header is.
 */
module SyncSafety {
  import opened RunMap
  import opened SyncSpec

  // ---------- the assertions ----------

  /** The header is neither skipped nor known nor contradicts what is below it. */
  predicate Merged(s: Sync, h: Incoming) {
    !Skipped(s, h) && !h.known && !Mismatched(s, h)
  }

  /** mergeInto's assertion on the empty body of a header. */
  lemma HeaderFailsIff(s: Sync, h: Incoming)
    requires !s.failed && !Mismatched(s, h)
    ensures AcceptHeader(s, h).failed <==> Merged(s, h) && h.header.id == EMPTY_ID && h.number in s.bodies
    ensures Merged(s, h) ==> (h.number in s.bodies <==> h.number in CutAbove(s, h).bodies)
  {
  }

  /** mergeInto's assertion on a body that arrives. */
  lemma BodyFailsIff(s: Sync, id: Id, body: Body)
    requires !s.failed
    ensures AcceptBody(s, id, body).failed <==> id in s.ids && s.ids[id] in s.headers && s.ids[id] in s.bodies
  {
  }

  /** The assertion after collecting: all headers have been processed, but a body lies beyond them. */
  lemma CollectFailsIff(s: Sync, results: nat -> ImportResult, k: nat)
    requires !s.failed && Complete(s, k)
    ensures Processed(s, results, k).failed
            <==> (forall n :: n in s.headers ==> n <= s.last + k) && (exists n :: n in s.bodies && n > s.last + k)
  {
    AdvancedOnly(s, results, k);
    hide Advanced, Complete;
    var hs, bs := From(s.headers, s.last + k + 1), From(s.bodies, s.last + k + 1);
    NoneFrom(s.headers, s.last + k + 1);
    NoneFrom(s.bodies, s.last + k + 1);
  }

  lemma NoneFrom<T>(m: map<nat, T>, n: nat)
    ensures From(m, n) == map[] <==> forall i :: i in m ==> i < n
  {
    if i :| i in m && i >= n { assert i in From(m, n); } else { assert From(m, n).Keys == {}; }
  }

  /** The assertion after a block that arrived on its own: its run was all the headers, but not all the bodies. */
  lemma NewBlockFailsIff(s: Sync, n: nat, hash: Hash)
    requires !s.failed
    ensures NewBlock(s, n, hash).failed
            <==> (forall k :: k in s.headers ==> Contiguous(s.headers, n, k))
                 && (exists k :: k in s.bodies && !Contiguous(s.bodies, n, k))
  {
    hide Contiguous;
    NothingWithout(s.headers, n);
    NothingWithout(s.bodies, n);
  }

  lemma NothingWithout<T>(m: map<nat, T>, n: nat)
    ensures WithoutRunFrom(m, n) == map[] <==> forall i :: i in m ==> Contiguous(m, n, i)
  {
    hide Contiguous;
    if i :| i in m && !Contiguous(m, n, i) { assert i in WithoutRunFrom(m, n); } else { assert WithoutRunFrom(m, n).Keys == {}; }
  }

  // ---------- bodies under headers ----------

  /** As long as bodies are only held for held headers, a batch of headers keeps it so and no assertion fails. */
  lemma {:induction false} CoveredBatch(s: Sync, batch: seq<Incoming>, head: Head)
    requires Covered(s) && !s.failed
    ensures Covered(AcceptAll(s, batch, head)) && !AcceptAll(s, batch, head).failed
    decreases |batch|
  {
    if batch != [] && !Mismatched(s, batch[0]) {
      CoveredHeader(s, batch[0]);
      hide AcceptHeader, Covered;
      CoveredBatch(AcceptHeader(s, batch[0]), batch[1..], head);
    }
  }

  lemma CoveredHeader(s: Sync, h: Incoming)
    requires Covered(s) && !s.failed && !Mismatched(s, h)
    ensures Covered(AcceptHeader(s, h)) && !AcceptHeader(s, h).failed
  {
    hide RunFrom;
  }

  lemma {:induction false} CoveredBodies(s: Sync, items: seq<Item>)
    requires Covered(s)
    ensures Covered(AcceptBodies(s, items))
    decreases |items|
  {
    if items != [] { CoveredBodies(AcceptBody(s, items[0].id, items[0].body), items[1..]); }
  }

  lemma CoveredCollect(s: Sync, results: nat -> ImportResult, k: nat)
    requires Covered(s) && !s.failed && Complete(s, k)
    ensures Covered(Processed(s, results, k)) && !Processed(s, results, k).failed
  {
    CollectFailsIff(s, results, k);
    AdvancedOnly(s, results, k);
    hide Advanced, Complete;
  }

  /** Dropping both runs leaves a body without its header exactly if the header run has a body beyond the body run. */
  lemma NewBlockCoveredIff(s: Sync, n: nat, hash: Hash)
    requires Covered(s)
    ensures Covered(WithoutBlock(s, n, hash)) <==> !Strands(s, n)
    ensures !Strands(s, n) && !s.failed ==> Covered(NewBlock(s, n, hash)) && !NewBlock(s, n, hash).failed
  {
    hide Contiguous;
    var t := WithoutBlock(s, n, hash);
    forall k | k in s.bodies && Contiguous(s.headers, n, k) ensures Contiguous(s.bodies, n, k) || (k in t.bodies && k !in t.headers) {}
  }

  predicate Strands(s: Sync, n: nat) {
    exists k :: k in s.bodies && Contiguous(s.headers, n, k) && !Contiguous(s.bodies, n, k)
  }

  // ---------- ids ----------

  /** An id that leads to a held header leads to one with that id whose body is missing. */
  predicate IdsAgree(s: Sync) {
    Agree(s.headers, s.bodies, s.ids)
  }

  predicate Agree(headers: map<nat, Header>, bodies: map<nat, Body>, ids: map<Id, nat>) {
    forall id :: id in ids && ids[id] in headers ==> headers[ids[id]].id == id && ids[id] !in bodies
  }

  /**
    Merging a header keeps the ids in agreement exactly if no other id that is left leads to its number and, unless
    its body is empty, no body is held there.
   */
  lemma IdsAgreeIff(s: Sync, h: Incoming)
    requires IdsAgree(s) && Merged(s, h) && EMPTY_ID !in s.ids && !AcceptHeader(s, h).failed
    ensures IdsAgree(AcceptHeader(s, h))
            <==> (forall id :: id in CutAbove(s, h).ids && id != h.header.id ==> s.ids[id] != h.number)
                 && (h.header.id != EMPTY_ID ==> h.number !in s.bodies)
  {
    CutKeepsIds(s, h);
    PlaceAgreesIff(CutAbove(s, h), h);
    hide Place, IdsAgree, CutAbove;
  }

  lemma CutKeepsIds(s: Sync, h: Incoming)
    requires Merged(s, h)
    ensures var c := CutAbove(s, h);
      && (IdsAgree(s) ==> IdsAgree(c)) && (forall id :: id in c.ids ==> id in s.ids && c.ids[id] == s.ids[id])
      && h.number !in c.headers && (h.number in c.bodies <==> h.number in s.bodies)
  {
    hide RunFrom, Mismatched;
  }

  lemma PlaceAgreesIff(c: Sync, h: Incoming)
    requires IdsAgree(c) && h.number !in c.headers && EMPTY_ID !in c.ids && !Place(c, h).failed
    ensures IdsAgree(Place(c, h))
            <==> (forall id :: id in c.ids && id != h.header.id ==> c.ids[id] != h.number)
                 && (h.header.id != EMPTY_ID ==> h.number !in c.bodies)
  {
    hide Agree;
    if h.header.id == EMPTY_ID {
      EmptyAgreesIff(c.headers, c.bodies, c.ids, h.number, h.header);
    } else {
      InsertAgreesIff(c.headers, c.bodies, c.ids, h.number, h.header);
    }
  }

  lemma InsertAgreesIff(headers: map<nat, Header>, bodies: map<nat, Body>, ids: map<Id, nat>, n: nat, h: Header)
    requires Agree(headers, bodies, ids) && n !in headers
    ensures Agree(headers[n := h], bodies, ids[h.id := n])
            <==> (forall id :: id in ids && id != h.id ==> ids[id] != n) && n !in bodies
  {
    var ids' := ids[h.id := n];
    assert h.id in ids' && ids'[h.id] == n;
    if id :| id in ids && id != h.id && ids[id] == n { assert id in ids' && ids'[id] == n; }
  }

  lemma EmptyAgreesIff(headers: map<nat, Header>, bodies: map<nat, Body>, ids: map<Id, nat>, n: nat, h: Header)
    requires Agree(headers, bodies, ids) && n !in headers && h.id !in ids
    ensures Agree(headers[n := h], bodies[n := EMPTY_BODY], ids) <==> forall id :: id in ids && id != h.id ==> ids[id] != n
  {
    if id :| id in ids && ids[id] == n { assert headers[n := h][ids[id]].id != id; }
  }

  /** The ids agree with the headers, and none is that of an empty body. */
  predicate Agreeing(s: Sync) {
    IdsAgree(s) && EMPTY_ID !in s.ids
  }

  /** If the header is merged, no other id leads to its number. */
  predicate Fresh(s: Sync, h: Incoming) {
    Merged(s, h) ==> forall id :: id in s.ids && id != h.header.id ==> s.ids[id] != h.number
  }

  predicate FreshBatch(s: Sync, batch: seq<Incoming>)
    decreases |batch|
  {
    batch == [] || Mismatched(s, batch[0]) || (Fresh(s, batch[0]) && FreshBatch(AcceptHeader(s, batch[0]), batch[1..]))
  }

  /** With every body under its header, a header keeps the ids in agreement exactly if it is fresh. */
  lemma AgreeingIff(s: Sync, h: Incoming)
    requires Agreeing(s) && Covered(s) && !s.failed && !Mismatched(s, h)
    ensures Agreeing(AcceptHeader(s, h)) <==> Fresh(s, h)
  {
    CoveredHeader(s, h);
    if Merged(s, h) {
      CutKeepsIds(s, h);
      IdsAgreeIff(s, h);
      KeepsOtherIds(s, h);
      hide IdsAgree, CutAbove, AcceptHeader, Mismatched;
    } else {
      hide Agree;
    }
  }

  lemma KeepsOtherIds(s: Sync, h: Incoming)
    ensures forall id :: id != h.header.id ==> (id in CutAbove(s, h).ids <==> id in s.ids)
    ensures Merged(s, h) && EMPTY_ID !in s.ids ==> EMPTY_ID !in AcceptHeader(s, h).ids
  {
    hide RunFrom, FitsAbove, Mismatched;
  }

  lemma {:induction false} AgreeingBatch(s: Sync, batch: seq<Incoming>, head: Head)
    requires Agreeing(s) && Covered(s) && !s.failed && FreshBatch(s, batch)
    ensures Agreeing(AcceptAll(s, batch, head))
    decreases |batch|
  {
    hide Agreeing, Covered, Mismatched, AcceptHeader, Fresh;
    if batch != [] {
      if Mismatched(s, batch[0]) {
        NothingAgrees(Restart(s, head));
      } else {
        CoveredHeader(s, batch[0]);
        AgreeingIff(s, batch[0]);
        AgreeingBatch(AcceptHeader(s, batch[0]), batch[1..], head);
      }
    }
  }

  lemma NothingAgrees(s: Sync)
    requires s.ids == map[]
    ensures Agreeing(s)
  {
  }

  lemma FewerAgree(s: Sync, t: Sync)
    requires Agreeing(s) && t.headers == s.headers && t.bodies == s.bodies && t.ids == s.ids
    ensures Agreeing(t)
  {
  }

  lemma {:induction false} AgreeingBodies(s: Sync, items: seq<Item>)
    requires Agreeing(s)
    ensures Agreeing(AcceptBodies(s, items)) && (!s.failed ==> !AcceptBodies(s, items).failed)
    decreases |items|
  {
    if items != [] { AgreeingBodies(AcceptBody(s, items[0].id, items[0].body), items[1..]); }
  }
}
