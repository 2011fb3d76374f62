/**
  The lists of children that are kept with the details of each block, in a memo in front of the database.
  A stored block above the head can be imported again, and what that does to the lists.
 */
module ChildLists {
  import opened BlockTree

  datatype Lists = Lists(memo: map<Hash, seq<Hash>>, db: map<Hash, seq<Hash>>)

  /** The details of an unknown block have no children. */
  function Listed(l: Lists, h: Hash): seq<Hash> {
    if h in l.memo then l.memo[h] else if h in l.db then l.db[h] else []
  }

  function Start(genesis: Hash): Lists {
    Lists(map[genesis := []], map[genesis := []])
  }

  /** Reading details memoises them. */
  function Noted(l: Lists, h: Hash): Lists {
    if h !in l.memo && h in l.db then l.(memo := l.memo[h := l.db[h]]) else l
  }

  /** Garbage collection drops memoised details. */
  function Forgotten(l: Lists, hashes: set<Hash>): Lists {
    l.(memo := l.memo - hashes)
  }

  /**
    Storing a block: it is appended to its parent's list in the memo, which is then written, and its own details
    are written with no children. If it was stored before, its details have been read by then.
   */
  function Recorded(l: Lists, parent: Hash, h: Hash): Lists {
    var t := Noted(Noted(l, h), parent);
    var kids := Listed(t, parent) + [h];
    Lists(t.memo[parent := kids], t.db[parent := kids][h := []])
  }

  predicate ChildOf(t: Tree, genesis: Hash, p: Hash, u: Hash) {
    u in t && u != genesis && t[u].parent == p
  }

  // ---------- what always holds ----------

  predicate Children(t: Tree, genesis: Hash, lists: map<Hash, seq<Hash>>) {
    forall p, u :: p in lists && u in lists[p] ==> ChildOf(t, genesis, p, u)
  }

  /** There is a list in the database for every stored block, and all that is listed are its children. */
  predicate Sound(l: Lists, t: Tree, genesis: Hash) {
    && l.memo.Keys <= l.db.Keys && l.db.Keys == t.Keys
    && Children(t, genesis, l.memo) && Children(t, genesis, l.db)
  }

  /** A block that is about to be stored, for the first time or again. */
  predicate Storable(t: Tree, genesis: Hash, h: Hash, d: Details) {
    h != genesis && d.parent in t && d.parent != h && (h in t ==> t[h].parent == d.parent)
  }

  lemma NotedSound(l: Lists, t: Tree, genesis: Hash, h: Hash)
    requires Sound(l, t, genesis)
    ensures Sound(Noted(l, h), t, genesis) && forall p :: Listed(Noted(l, h), p) == Listed(l, p)
  {
  }

  lemma ForgottenSound(l: Lists, t: Tree, genesis: Hash, hashes: set<Hash>)
    requires Sound(l, t, genesis)
    ensures Sound(Forgotten(l, hashes), t, genesis)
  {
  }

  lemma RecordedSound(l: Lists, t: Tree, genesis: Hash, h: Hash, d: Details)
    requires Sound(l, t, genesis) && Storable(t, genesis, h, d)
    ensures Sound(Recorded(l, d.parent, h), t[h := d], genesis)
  {
    var p, t' := d.parent, t[h := d];
    NotedSound(l, t, genesis, h);
    NotedSound(Noted(l, h), t, genesis, p);
    var n := Noted(Noted(l, h), p);
    hide Noted;
    var kids := Listed(n, p) + [h];
    ListedAreChildren(n, t, genesis, p);
    GrownChildren(t, genesis, h, d, n.memo, p, kids);
    GrownChildren(t, genesis, h, d, n.db, p, kids);
  }

  lemma ListedAreChildren(l: Lists, t: Tree, genesis: Hash, p: Hash)
    requires Sound(l, t, genesis)
    ensures forall u :: u in Listed(l, p) ==> ChildOf(t, genesis, p, u)
  {
  }

  /** Lists of children stay so when a block is stored and appended to its parent's list. */
  lemma GrownChildren(t: Tree, genesis: Hash, h: Hash, d: Details, lists: map<Hash, seq<Hash>>, p: Hash, kids: seq<Hash>)
    requires Children(t, genesis, lists) && Storable(t, genesis, h, d) && p == d.parent
    requires forall u :: u in kids ==> u == h || ChildOf(t, genesis, p, u)
    ensures Children(t[h := d], genesis, lists[p := kids]) && Children(t[h := d], genesis, lists[p := kids][h := []])
  {
    var t' := t[h := d];
    forall q, u | ChildOf(t, genesis, q, u) ensures ChildOf(t', genesis, q, u) {}
    assert ChildOf(t', genesis, p, h);
  }

  // ---------- exact lists ----------

  /** Every child is listed. */
  ghost predicate Full(l: Lists, t: Tree, genesis: Hash) {
    forall p, u :: p in t && ChildOf(t, genesis, p, u) ==> u in Listed(l, p)
  }

  /** No child is listed twice. */
  predicate Once(l: Lists, t: Tree) {
    forall p :: p in t ==> Distinct(Listed(l, p))
  }

  predicate Written(l: Lists) {
    forall p :: p in l.memo && p in l.db ==> l.memo[p] == l.db[p]
  }

  /** The memo repeats the database, and each list holds every child of its block once. */
  ghost predicate Exact(l: Lists, t: Tree, genesis: Hash) {
    Sound(l, t, genesis) && Written(l) && Full(l, t, genesis) && Once(l, t)
  }

  lemma StartExact(t: Tree, genesis: Hash)
    requires t.Keys == {genesis}
    ensures Exact(Start(genesis), t, genesis)
  {
  }

  lemma NotedExact(l: Lists, t: Tree, genesis: Hash, h: Hash)
    requires Exact(l, t, genesis)
    ensures Exact(Noted(l, h), t, genesis)
  {
    NotedSound(l, t, genesis, h);
    hide Sound, Listed;
  }

  lemma ForgottenExact(l: Lists, t: Tree, genesis: Hash, hashes: set<Hash>)
    requires Exact(l, t, genesis)
    ensures Exact(Forgotten(l, hashes), t, genesis)
  {
    ForgottenSound(l, t, genesis, hashes);
    var l' := Forgotten(l, hashes);
    forall p | p in t ensures Listed(l', p) == Listed(l, p) {}
    hide Listed, ChildOf, Distinct;
  }

  /** What storing a block does to the list of each block. */
  lemma RecordedAt(l: Lists, t: Tree, genesis: Hash, h: Hash, d: Details, p: Hash)
    requires Sound(l, t, genesis) && Storable(t, genesis, h, d) && (p in t || p == h)
    ensures var l' := Recorded(l, d.parent, h);
      Listed(l', p) == if p == d.parent then Listed(l, p) + [h] else if p in t then Listed(l, p) else []
  {
    hide Children, ChildOf;
  }

  /** A new block keeps the lists exact. */
  lemma RecordedExact(l: Lists, t: Tree, genesis: Hash, h: Hash, d: Details)
    requires Exact(l, t, genesis) && WellNumbered(t, genesis) && Storable(t, genesis, h, d) && h !in t
    ensures Exact(Recorded(l, d.parent, h), t[h := d], genesis)
  {
    var l', t' := Recorded(l, d.parent, h), t[h := d];
    RecordedSound(l, t, genesis, h, d);
    RecordedWritten(l, t, genesis, h, d);
    forall p | p in t' ensures Distinct(Listed(l', p)) && forall u :: ChildOf(t', genesis, p, u) ==> u in Listed(l', p) {
      RecordedAt(l, t, genesis, h, d, p);
      NewChild(t, genesis, h, d, p);
      hide Recorded, Listed;
      if p == d.parent {
        assert h !in Listed(l, p) by { ListedAreChildren(l, t, genesis, p); }
        DistinctAppend(Listed(l, p), [h]);
      } else if p == h {
        assert Distinct([]);
      }
    }
    hide Recorded, Listed, Distinct, ChildOf;
  }

  lemma RecordedWritten(l: Lists, t: Tree, genesis: Hash, h: Hash, d: Details)
    requires Sound(l, t, genesis) && Written(l) && Storable(t, genesis, h, d) && h !in t
    ensures Written(Recorded(l, d.parent, h))
  {
    hide Children;
  }

  lemma NewChild(t: Tree, genesis: Hash, h: Hash, d: Details, p: Hash)
    requires WellNumbered(t, genesis) && Storable(t, genesis, h, d) && h !in t
    ensures forall u :: ChildOf(t[h := d], genesis, p, u) <==> ChildOf(t, genesis, p, u) || (p == d.parent && u == h)
    ensures forall u :: !ChildOf(t, genesis, h, u)
  {
    forall u ensures ChildOf(t[h := d], genesis, p, u) <==> ChildOf(t, genesis, p, u) || (p == d.parent && u == h) {}
    forall u ensures !ChildOf(t, genesis, h, u) {}
  }

  /** A stored block that is imported again is listed again. */
  lemma RecordedTwice(l: Lists, t: Tree, genesis: Hash, h: Hash, d: Details)
    requires Sound(l, t, genesis) && Full(l, t, genesis) && Storable(t, genesis, h, d) && h in t
    ensures !Distinct(Listed(Recorded(l, d.parent, h), d.parent))
  {
    RecordedAt(l, t, genesis, h, d, d.parent);
    hide Recorded;
    var kids := Listed(l, d.parent);
    assert ChildOf(t, genesis, d.parent, h);
    var i :| 0 <= i < |kids| && kids[i] == h;
    assert (kids + [h])[i] == h == (kids + [h])[|kids|];
  }

  // ---------- lost children ----------

  /** Storing a block, for the first time or again, loses no child from the lists. */
  lemma RecordedFull(l: Lists, t: Tree, genesis: Hash, h: Hash, d: Details)
    requires Sound(l, t, genesis) && Full(l, t, genesis) && WellNumbered(t, genesis) && Storable(t, genesis, h, d)
    ensures Full(Recorded(l, d.parent, h), t[h := d], genesis)
  {
    var l', t' := Recorded(l, d.parent, h), t[h := d];
    forall p, u | p in t' && ChildOf(t', genesis, p, u) ensures u in Listed(l', p) {
      RecordedAt(l, t, genesis, h, d, p);
      if h !in t { NewChild(t, genesis, h, d, p); }
      hide Recorded;
    }
  }

  /** Dropping memoised details loses no child exactly if the database lists the children of each. */
  lemma ForgottenFullIff(l: Lists, t: Tree, genesis: Hash, hashes: set<Hash>)
    requires Sound(l, t, genesis) && Full(l, t, genesis)
    ensures Full(Forgotten(l, hashes), t, genesis)
            <==> forall p, u :: p in hashes && p in l.memo && ChildOf(t, genesis, p, u) ==> u in l.db[p]
  {
    hide Children, ChildOf;
    var l' := Forgotten(l, hashes);
    forall p | p in t ensures Listed(l', p) == if p in hashes && p in l.memo then l.db[p] else Listed(l, p) {}
    hide Listed, Forgotten;
  }

  /** What storing a block writes to the database. */
  lemma RecordedDb(l: Lists, t: Tree, genesis: Hash, h: Hash, d: Details, p: Hash)
    requires Sound(l, t, genesis) && Storable(t, genesis, h, d) && (p in t || p == h)
    ensures var l' := Recorded(l, d.parent, h);
      p in l'.db && l'.db[p] == if p == h then [] else if p == d.parent then Listed(l, p) + [h] else l.db[p]
  {
    hide Children, ChildOf;
  }

  // ---------- when a child is missing from the database ----------

  /** A block that has been stored; `again` says that it was stored before. */
  datatype Stored = Stored(hash: Hash, parent: Hash, again: bool)

  predicate WasStored(log: seq<Stored>, h: Hash, u: Hash) {
    exists k :: 0 <= k < |log| && log[k].hash == u && log[k].parent == h
  }

  /** Block h was stored again after its child u, and no child of h was stored since. */
  predicate ErasedSince(log: seq<Stored>, h: Hash, u: Hash) {
    exists i :: 0 <= i < |log| && log[i].hash == h && log[i].again && WasStored(log[..i], h, u) && NoChildFrom(log, i + 1, h)
  }

  predicate NoChildFrom(log: seq<Stored>, i: nat, h: Hash) {
    forall j :: i <= j < |log| ==> log[j].parent != h
  }

  lemma WasStoredPush(log: seq<Stored>, e: Stored, h: Hash, u: Hash)
    ensures WasStored(log + [e], h, u) <==> WasStored(log, h, u) || (e.hash == u && e.parent == h)
  {
    var log' := log + [e];
    if k :| 0 <= k < |log| && log[k].hash == u && log[k].parent == h { assert log'[k] == log[k]; }
    assert log'[|log|] == e;
  }

  lemma ErasedPush(log: seq<Stored>, e: Stored, h: Hash, u: Hash)
    requires e.parent != e.hash
    ensures ErasedSince(log + [e], h, u)
            <==> (e.hash == h && e.again && WasStored(log, h, u)) || (ErasedSince(log, h, u) && e.parent != h)
  {
    var log', n := log + [e], |log|;
    hide WasStored;
    assert log'[..n] == log && log'[n] == e;
    forall i | 0 <= i < n ensures log'[..i] == log[..i] && log'[i] == log[i] {}
    forall i: nat | i <= n ensures NoChildFrom(log', i, h) <==> NoChildFrom(log, i, h) && e.parent != h { NoChildPush(log, e, i, h); }
    hide NoChildFrom;
    if ErasedSince(log', h, u) {
      var i :| 0 <= i < |log'| && log'[i].hash == h && log'[i].again && WasStored(log'[..i], h, u) && NoChildFrom(log', i + 1, h);
      assert i == n || (log[i].hash == h && NoChildFrom(log, i + 1, h));
    }
    if e.hash == h && e.again && WasStored(log, h, u) {
      assert NoChildFrom(log', n + 1, h) by { NothingBeyond(log', h); }
      assert log'[n].hash == h;
    }
    if ErasedSince(log, h, u) && e.parent != h {
      var i :| 0 <= i < n && log[i].hash == h && log[i].again && WasStored(log[..i], h, u) && NoChildFrom(log, i + 1, h);
      assert log'[i].hash == h && NoChildFrom(log', i + 1, h);
    }
  }

  lemma NoChildPush(log: seq<Stored>, e: Stored, i: nat, h: Hash)
    requires i <= |log|
    ensures NoChildFrom(log + [e], i, h) <==> NoChildFrom(log, i, h) && e.parent != h
  {
    var log' := log + [e];
    assert log'[|log|] == e;
    if NoChildFrom(log', i, h) {
      forall j | i <= j < |log| ensures log[j].parent != h { assert log'[j] == log[j]; }
    }
  }

  lemma NothingBeyond(log: seq<Stored>, h: Hash)
    ensures NoChildFrom(log, |log|, h)
  {
  }

  /** Every stored child is in the log, and missing from the database exactly if it has been erased since. */
  ghost predicate LogAccounts(log: seq<Stored>, l: Lists, t: Tree, genesis: Hash) {
    forall h, u :: h in t && h in l.db && ChildOf(t, genesis, h, u) ==> ChildAccounted(log, l, h, u)
  }

  predicate ChildAccounted(log: seq<Stored>, l: Lists, h: Hash, u: Hash)
    requires h in l.db
  {
    WasStored(log, h, u) && (u !in l.db[h] <==> ErasedSince(log, h, u))
  }

  /** Reading details and dropping them from the memo leave the database. */
  lemma SameDbAccounts(log: seq<Stored>, l: Lists, l': Lists, t: Tree, genesis: Hash)
    requires LogAccounts(log, l, t, genesis) && l'.db == l.db
    ensures LogAccounts(log, l', t, genesis)
  {
    hide ChildOf, WasStored, ErasedSince;
    forall h, u | h in t && h in l.db && ChildOf(t, genesis, h, u) ensures ChildAccounted(log, l', h, u) {
      assert ChildAccounted(log, l, h, u);
    }
  }

  lemma RecordedAccounts(log: seq<Stored>, l: Lists, t: Tree, genesis: Hash, h: Hash, d: Details)
    requires Sound(l, t, genesis) && Full(l, t, genesis) && WellNumbered(t, genesis) && Storable(t, genesis, h, d)
    requires LogAccounts(log, l, t, genesis)
    ensures LogAccounts(log + [Stored(h, d.parent, h in t)], Recorded(l, d.parent, h), t[h := d], genesis)
  {
    var log', l', t' := log + [Stored(h, d.parent, h in t)], Recorded(l, d.parent, h), t[h := d];
    forall p, u | p in t' && p in l'.db && ChildOf(t', genesis, p, u) ensures ChildAccounted(log', l', p, u) {
      RecordedAccountsAt(log, l, t, genesis, h, d, p, u);
    }
  }

  lemma RecordedAccountsAt(log: seq<Stored>, l: Lists, t: Tree, genesis: Hash, h: Hash, d: Details, p: Hash, u: Hash)
    requires Sound(l, t, genesis) && Full(l, t, genesis) && WellNumbered(t, genesis) && Storable(t, genesis, h, d)
    requires LogAccounts(log, l, t, genesis) && p in t[h := d] && ChildOf(t[h := d], genesis, p, u)
    ensures p in Recorded(l, d.parent, h).db && ChildAccounted(log + [Stored(h, d.parent, h in t)], Recorded(l, d.parent, h), p, u)
  {
    RecordedDb(l, t, genesis, h, d, p);
    if h !in t { NewChild(t, genesis, h, d, p); }
    hide WellNumbered, Recorded, WasStored, ErasedSince, Listed;
    WasStoredPush(log, Stored(h, d.parent, h in t), p, u);
    ErasedPush(log, Stored(h, d.parent, h in t), p, u);
    if p in t && ChildOf(t, genesis, p, u) { assert ChildAccounted(log, l, p, u); }
  }

  /** Written again, the details of a stored block have no children in the database, though the memo has them still. */
  lemma RecordedAgain(l: Lists, t: Tree, genesis: Hash, h: Hash, d: Details)
    requires Sound(l, t, genesis) && Storable(t, genesis, h, d) && h in t
    ensures var l' := Recorded(l, d.parent, h); h in l'.memo && l'.memo[h] == Listed(l, h) && l'.db[h] == []
  {
    hide Children, ChildOf;
  }
}
