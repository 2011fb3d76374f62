/**
  The account state: a write-back cache of accounts over a trie. The cache and the trie together
  present the plain account map of module Accounts; every operation is proved against that view.
 */
module AccountState {
  import opened Accounts

  /** Hashes of code; `Conception` marks an account whose code is still being determined. */
  datatype CodeHash = Conception | Sha3(preimage: Code)

  const EMPTY_SHA3 := Sha3([])

  /** A leaf of the state trie. A storage root stands for the storage trie's contents, which hold no zeros. */
  datatype Stored = Stored(nonce: nat, balance: nat, storage: Storage, codeHash: CodeHash)

  /** A cached account: the base storage root with an overlay on it, and the code if it has been looked up. */
  datatype Cached = Cached(alive: bool, dirty: bool, nonce: nat, balance: nat, base: Storage, overlay: Storage,
                           codeHash: CodeHash, codeCache: Code)
  {
    predicate Fresh() {
      codeHash.Conception?
    }

    predicate CodeCacheValid() {
      codeHash == EMPTY_SHA3 || Fresh() || codeCache != []
    }

    function Kill(): Cached {
      this.(alive := false, overlay := map[], codeHash := EMPTY_SHA3, base := map[], balance := 0, nonce := 0,
            dirty := true)
    }

    function Add(amount: int): Cached {
      if amount == 0 then this else this.(balance := (balance + amount) % WORD, dirty := true)
    }

    function SetStorage(key: nat, value: nat): Cached {
      this.(overlay := overlay[key := value], dirty := true)
    }
  }

  const DEAD := Cached(false, true, 0, 0, map[], map[], EMPTY_SHA3, [])

  function NewAccount(nonce: nat, balance: nat): Cached {
    Cached(true, true, nonce, balance, map[], map[], EMPTY_SHA3, [])
  }

  type Cache = map<Address, Cached>
  type Trie = map<Address, Stored>
  type CodeDb = map<CodeHash, Code>

  // ---------- what the cache and the trie mean ----------

  predicate NoZeros(s: Storage) {
    forall k :: k in s ==> s[k] != 0
  }

  /** The overlay's entries over the base, zero meaning absent. */
  function Overlaid(base: Storage, overlay: Storage): Storage {
    map k | k in base.Keys + overlay.Keys && (if k in overlay then overlay[k] else base[k]) != 0 ::
      if k in overlay then overlay[k] else base[k]
  }

  function CodeOf(c: Cached): Code {
    match c.codeHash
    case Conception => c.codeCache
    case Sha3(code) => code
  }

  function Meaning(c: Cached): Account {
    Account(c.nonce, c.balance, Overlaid(c.base, c.overlay), CodeOf(c), c.Fresh())
  }

  function Leaf(s: Stored): Account {
    Account(s.nonce, s.balance, s.storage, if s.codeHash.Sha3? then s.codeHash.preimage else [], false)
  }

  /** Accounts in the cache count if they are alive; others count as the trie has them. */
  function ViewOf(cache: Cache, trie: Trie): World {
    map a | a in cache.Keys + trie.Keys && (a in cache ==> cache[a].alive) ::
      if a in cache then Meaning(cache[a]) else Leaf(trie[a])
  }

  predicate CodeKnown(h: CodeHash, db: CodeDb) {
    h.Sha3? && h.preimage != [] ==> h in db && db[h] == h.preimage
  }

  predicate StoredOk(s: Stored, db: CodeDb) {
    s.codeHash.Sha3? && CodeKnown(s.codeHash, db) && NoZeros(s.storage) && s.balance < WORD
  }

  /** A cached code is the code of the hash; a dead account holds nothing. */
  predicate CachedOk(c: Cached, db: CodeDb) {
    && CodeKnown(c.codeHash, db) && NoZeros(c.base) && c.balance < WORD
    && (c.alive && c.codeHash.Sha3? ==> c.codeCache == [] || c.codeCache == c.codeHash.preimage)
    && (!c.alive ==> c.balance == 0 && c.codeHash == EMPTY_SHA3 && Overlaid(c.base, c.overlay) == map[])
  }

  /** An entry that is not dirty says what the trie says. */
  predicate Clean(c: Cached, a: Address, trie: Trie) {
    !c.dirty ==> c.alive && a in trie && Meaning(c) == Leaf(trie[a])
  }

  predicate AllAlive(cache: Cache) {
    forall a :: a in cache ==> cache[a].alive
  }

  predicate Consistent(cache: Cache, trie: Trie, db: CodeDb) {
    && (forall a :: a in cache ==> CachedOk(cache[a], db) && Clean(cache[a], a, trie))
    && (forall a :: a in trie ==> StoredOk(trie[a], db))
  }

  lemma OverlaySet(base: Storage, overlay: Storage, key: nat, value: nat)
    ensures Overlaid(base, overlay[key := value]) == SetSlot(Overlaid(base, overlay), key, value)
  {
  }

  /** Reading a slot into the overlay does not change what the account means. */
  lemma OverlayRead(base: Storage, overlay: Storage, key: nat)
    requires key !in overlay && NoZeros(base)
    ensures Overlaid(base, overlay[key := if key in base then base[key] else 0]) == Overlaid(base, overlay)
  {
  }

  lemma OverlaidNoZeros(base: Storage, overlay: Storage)
    ensures NoZeros(Overlaid(base, overlay))
  {
  }

  lemma OverlayNothing(base: Storage)
    requires NoZeros(base)
    ensures Overlaid(base, map[]) == base
  {
  }

  lemma OverlayAt(base: Storage, overlay: Storage, key: nat)
    ensures var v := if key in overlay then overlay[key] else if key in base then base[key] else 0;
      if v == 0 then key !in Overlaid(base, overlay) else key in Overlaid(base, overlay) && Overlaid(base, overlay)[key] == v
  {
  }

  lemma NewAccountMeans(nonce: nat, balance: nat)
    ensures Meaning(NewAccount(nonce, balance)) == FreshAccount(nonce, balance)
  {
    assert Overlaid(map[], map[]) == map[];
  }

  lemma NewAccountOk(nonce: nat, balance: nat, db: CodeDb)
    requires balance < WORD
    ensures CachedOk(NewAccount(nonce, balance), db)
  {
  }

  lemma ViewSet(cache: Cache, trie: Trie, a: Address, c: Cached)
    requires c.alive
    ensures ViewOf(cache[a := c], trie) == ViewOf(cache, trie)[a := Meaning(c)]
  {
  }

  lemma ViewLoad(cache: Cache, trie: Trie, a: Address, c: Cached)
    requires a !in cache && a in trie && c.alive && Meaning(c) == Leaf(trie[a])
    ensures ViewOf(cache[a := c], trie) == ViewOf(cache, trie)
  {
  }

  lemma ViewKill(cache: Cache, trie: Trie, a: Address, c: Cached)
    requires !c.alive
    ensures ViewOf(cache[a := c], trie) == ViewOf(cache, trie) - {a}
  {
  }

  /** Writing an entry back into the cache: a live, dirty entry changes exactly its own account. */
  lemma PutKeeps(cache: Cache, trie: Trie, db: CodeDb, a: Address, c: Cached)
    requires Consistent(cache, trie, db) && CachedOk(c, db) && c.alive && (c.dirty || (a in cache && c == cache[a]))
    ensures Consistent(cache[a := c], trie, db)
    ensures ViewOf(cache[a := c], trie) == ViewOf(cache, trie)[a := Meaning(c)]
  {
    hide ViewOf, Meaning, CachedOk, StoredOk;
    ViewSet(cache, trie, a, c);
  }

  lemma AddMeans(c: Cached, amount: int, db: CodeDb)
    requires CachedOk(c, db) && c.alive && 0 <= c.balance + amount
    ensures CachedOk(c.Add(amount), db) && c.Add(amount).alive && (c.Add(amount).dirty || c.Add(amount) == c)
    ensures Meaning(c.Add(amount)) == Meaning(c).(balance := (c.balance + amount) % WORD)
    ensures Meaning(c).balance == c.balance
    ensures amount <= 0 ==> (c.balance + amount) % WORD == c.balance + amount
  {
    hide Overlaid;
  }

  lemma BumpMeans(c: Cached, db: CodeDb)
    requires CachedOk(c, db) && c.alive
    ensures var c' := c.(nonce := (c.nonce + 1) % WORD, dirty := true);
      CachedOk(c', db) && Meaning(c') == Meaning(c).(nonce := (c.nonce + 1) % WORD) && Meaning(c).nonce == c.nonce
  {
    hide Overlaid;
  }

  lemma BalanceFitsAt(cache: Cache, trie: Trie, db: CodeDb, a: Address)
    requires Consistent(cache, trie, db)
    ensures Balance(ViewOf(cache, trie), a) < WORD
  {
    hide Overlaid;
    ViewAt(cache, trie, a);
  }

  lemma MeaningBalance(c: Cached)
    ensures Meaning(c).balance == c.balance
  {
  }

  lemma ViewAt(cache: Cache, trie: Trie, a: Address)
    ensures a in cache && cache[a].alive ==> a in ViewOf(cache, trie) && ViewOf(cache, trie)[a] == Meaning(cache[a])
    ensures a in cache && !cache[a].alive ==> a !in ViewOf(cache, trie)
    ensures a !in cache ==> (a in ViewOf(cache, trie) <==> a in trie)
    ensures a !in cache && a in trie ==> ViewOf(cache, trie)[a] == Leaf(trie[a])
  {
  }

  /** Replacing an entry by one that means the same changes nothing. */
  lemma SameMeaningKeeps(cache: Cache, trie: Trie, db: CodeDb, a: Address, c: Cached)
    requires Consistent(cache, trie, db) && a in cache && CachedOk(c, db)
    requires c.alive == cache[a].alive && Meaning(c) == Meaning(cache[a]) && (cache[a].dirty ==> c.dirty)
    ensures Consistent(cache[a := c], trie, db)
    ensures ViewOf(cache[a := c], trie) == ViewOf(cache, trie)
  {
    hide CachedOk, StoredOk, Overlaid, Meaning, Leaf;
    SameMeaningView(cache, trie, a, c);
    hide ViewOf;
  }

  lemma SameMeaningView(cache: Cache, trie: Trie, a: Address, c: Cached)
    requires a in cache && c.alive == cache[a].alive && Meaning(c) == Meaning(cache[a])
    ensures ViewOf(cache[a := c], trie) == ViewOf(cache, trie)
  {
    hide Meaning, Leaf;
    var w, w' := ViewOf(cache, trie), ViewOf(cache[a := c], trie);
    forall b ensures (b in w <==> b in w') && (b in w ==> w[b] == w'[b]) {
      assert b in cache[a := c] <==> b in cache;
    }
  }

  /** A killed account that is written to stays invisible, but holds something unless it is left as empty as it was. */
  lemma DeadPut(cache: Cache, trie: Trie, db: CodeDb, a: Address, c: Cached)
    requires Consistent(cache, trie, db) && (a in cache ==> !cache[a].alive) && !c.alive && c.dirty
    ensures ViewOf(cache[a := c], trie) == ViewOf(cache, trie) - {a}
    ensures Consistent(cache[a := c], trie, db) <==> CachedOk(c, db)
  {
    ViewKill(cache, trie, a, c);
    hide CachedOk, StoredOk, ViewOf, Meaning, Leaf;
  }

  lemma DeadHoldsNothing(c: Cached, db: CodeDb)
    requires CachedOk(c, db)
    ensures !c.alive ==> c.balance == 0 && c.Add(0) == c
  {
  }

  lemma EntryOk(cache: Cache, trie: Trie, db: CodeDb, a: Address)
    requires Consistent(cache, trie, db)
    ensures CachedOk(DEAD, db) && (a in cache ==> CachedOk(cache[a], db))
  {
    assert Overlaid(map[], map[]) == map[];
    hide Overlaid;
  }

  lemma StoresOnly(c: Cached, key: nat, value: nat)
    ensures c.SetStorage(key, value).alive == c.alive && c.SetStorage(key, value).dirty
  {
  }

  lemma StoreMeans(cache: Cache, trie: Trie, db: CodeDb, a: Address, key: nat, value: nat)
    requires Consistent(cache, trie, db) && a in cache && cache[a].alive
    ensures a in ViewOf(cache, trie) && Consistent(cache[a := cache[a].SetStorage(key, value)], trie, db)
    ensures ViewOf(cache[a := cache[a].SetStorage(key, value)], trie)
            == ViewOf(cache, trie)[a := ViewOf(cache, trie)[a].(storage := SetSlot(ViewOf(cache, trie)[a].storage, key, value))]
  {
    var c := cache[a].SetStorage(key, value);
    OverlaySet(cache[a].base, cache[a].overlay, key, value);
    PutKeeps(cache, trie, db, a, c);
    ViewAt(cache, trie, a);
    hide ViewOf, Overlaid;
  }

  lemma DeadMeans(c: Cached, db: CodeDb, key: nat, value: nat, amount: nat)
    requires CachedOk(c, db) && !c.alive && amount < WORD
    ensures CachedOk(c.(nonce := (c.nonce + 1) % WORD, dirty := true), db)
    ensures CachedOk(c.Add(amount), db) <==> amount == 0
    ensures CachedOk(c.SetStorage(key, value), db) <==> value == 0
  {
    OverlaySet(c.base, c.overlay, key, value);
    hide Overlaid;
    var none: Storage := map[];
    assert SetSlot(none, key, value) == none <==> value == 0 by {
      if value != 0 { assert key in SetSlot(none, key, value); }
    }
  }

  class State {
    var trie: Trie
    var cache: Cache
    var db: CodeDb
    var touched: set<Address>
    const startNonce: nat

    ghost predicate Valid()
      reads this
    {
      Consistent(cache, trie, db)
    }

    ghost function View(): World
      reads this
    {
      ViewOf(cache, trie)
    }

    /** The address has not been killed since the last commit. */
    ghost predicate NotDead(a: Address)
      reads this
    {
      a in cache ==> cache[a].alive
    }

    constructor (trie: Trie, db: CodeDb, startNonce: nat)
      requires forall a :: a in trie ==> StoredOk(trie[a], db)
      ensures Valid() && this.trie == trie && cache == map[] && this.startNonce == startNonce
      ensures View() == map a | a in trie :: Leaf(trie[a])
    {
      this.trie, this.db, this.startNonce := trie, db, startNonce;
      cache, touched := map[], {};
    }

    /** Brings an account into the cache, creating a default one on demand. */
    method EnsureCached(a: Address, requireCode: bool, forceCreate: bool)
      requires Valid()
      modifies this`cache
      ensures Valid() && old(cache).Keys <= cache.Keys
      ensures View() == if forceCreate && a !in old(cache) && a !in trie
                        then old(View())[a := FreshAccount(startNonce, 0)] else old(View())
      ensures a in cache <==> a in old(cache) || a in trie || forceCreate
      ensures a in old(cache) ==> cache[a] == old(cache)[a].(codeCache := cache[a].codeCache)
      ensures a in cache && requireCode ==> cache[a].CodeCacheValid()
      ensures forall b :: b in old(cache) && b != a ==> cache[b] == old(cache)[b]
      ensures AllAlive(old(cache)) ==> AllAlive(cache)
    {
      hide ViewOf, Overlaid;
      ViewAt(cache, trie, a);
      if a !in cache {
        if a !in trie && !forceCreate {
          return;
        }
        if a !in trie {
          NewAccountMeans(startNonce, 0);
          PutKeeps(cache, trie, db, a, NewAccount(startNonce, 0));
          cache := cache[a := NewAccount(startNonce, 0)];
        } else {
          var s := trie[a];
          var c := Cached(true, false, s.nonce, s.balance, s.storage, map[], s.codeHash, []);
          OverlayNothing(s.storage);
          ViewLoad(cache, trie, a, c);
          cache := cache[a := c];
        }
      }
      if requireCode && !cache[a].Fresh() && !cache[a].CodeCacheValid() {
        var c := cache[a];
        var code := db[c.codeHash];
        SameMeaningKeeps(cache, trie, db, a, c.(codeCache := code));
        cache := cache[a := c.(codeCache := code)];
      }
    }

    method BalanceOf(a: Address) returns (r: nat)
      requires Valid()
      modifies this`cache
      ensures Valid() && View() == old(View()) && r == Balance(View(), a)
      ensures old(cache).Keys <= cache.Keys && (AllAlive(old(cache)) ==> AllAlive(cache))
    {
      hide ViewOf, Overlaid;
      ViewAt(cache, trie, a);
      EnsureCached(a, false, false);
      ViewAt(cache, trie, a);
      r := if a in cache then cache[a].balance else 0;
    }

    method TransactionsFrom(a: Address) returns (r: nat)
      requires Valid()
      modifies this`cache
      ensures Valid() && View() == old(View())
      ensures r == if old(NotDead(a)) then Nonce(View(), a, startNonce) else old(cache[a].nonce)
      ensures old(cache).Keys <= cache.Keys && (AllAlive(old(cache)) ==> AllAlive(cache))
    {
      hide ViewOf, Overlaid;
      ViewAt(cache, trie, a);
      EnsureCached(a, false, false);
      ViewAt(cache, trie, a);
      r := if a in cache then cache[a].nonce else startNonce;
    }

    method NoteSendingFrom(a: Address)
      requires Valid()
      modifies this`cache
      ensures Valid() && View() == if old(NotDead(a)) then NoteSending(old(View()), a, startNonce) else old(View())
      ensures old(cache).Keys <= cache.Keys && a in cache && (AllAlive(old(cache)) ==> AllAlive(cache))
    {
      hide ViewOf, Overlaid, Meaning, CachedOk;
      ViewAt(cache, trie, a);
      EnsureCached(a, false, false);
      ViewAt(cache, trie, a);
      if a in cache && !cache[a].alive {
        DeadMeans(cache[a], db, 0, 0, 0);
        DeadPut(cache, trie, db, a, cache[a].(nonce := (cache[a].nonce + 1) % WORD, dirty := true));
        cache := cache[a := cache[a].(nonce := (cache[a].nonce + 1) % WORD, dirty := true)];
        return;
      }
      var c := if a in cache then cache[a].(nonce := (cache[a].nonce + 1) % WORD, dirty := true)
               else NewAccount((startNonce + 1) % WORD, 0);
      if a in cache {
        BumpMeans(cache[a], db);
      } else {
        NewAccountMeans((startNonce + 1) % WORD, 0);
        NewAccountOk((startNonce + 1) % WORD, 0, db);
      }
      PutKeeps(cache, trie, db, a, c);
      cache := cache[a := c];
    }

    method AddTo(a: Address, amount: nat)
      requires Valid() && amount < WORD
      modifies this`cache
      ensures View() == if old(NotDead(a)) then AddBalance(old(View()), a, amount, startNonce) else old(View())
      ensures Valid() <==> old(NotDead(a)) || amount == 0
      ensures old(cache).Keys <= cache.Keys && a in cache && (AllAlive(old(cache)) ==> AllAlive(cache))
    {
      hide ViewOf, Overlaid, Meaning, CachedOk, Cached.Add;
      ViewAt(cache, trie, a);
      EnsureCached(a, false, false);
      ViewAt(cache, trie, a);
      if a in cache && !cache[a].alive {
        if amount != 0 { AddToDead(a, amount); }
        return;
      }
      var c := if a in cache then cache[a].Add(amount) else NewAccount(startNonce, amount);
      if a in cache {
        AddMeans(cache[a], amount, db);
      } else {
        NewAccountMeans(startNonce, amount);
        NewAccountOk(startNonce, amount, db);
      }
      PutKeeps(cache, trie, db, a, c);
      cache := cache[a := c];
    }

    /** Money sent to an account that has been killed but not removed: the entry holds it and stays dead. */
    method AddToDead(a: Address, amount: nat)
      requires Valid() && a in cache && !cache[a].alive && 0 < amount < WORD
      modifies this`cache
      ensures View() == old(View()) && !Valid() && cache.Keys == old(cache).Keys && !AllAlive(cache)
    {
      hide ViewOf, Overlaid, Meaning, CachedOk, Consistent;
      EntryOk(cache, trie, db, a);
      ViewAt(cache, trie, a);
      DeadMeans(cache[a], db, 0, 0, amount);
      DeadPut(cache, trie, db, a, cache[a].Add(amount));
      cache := cache[a := cache[a].Add(amount)];
    }

    /** Fails, like the original's NotEnoughCash, exactly when the balance is too small or the address unused. */
    method SubFrom(a: Address, amount: nat) returns (ok: bool)
      requires Valid()
      modifies this`cache
      ensures Valid() && old(cache).Keys <= cache.Keys && (AllAlive(old(cache)) ==> AllAlive(cache))
      ensures ok <==> (a in old(View()) && old(View())[a].balance >= amount) || (!old(NotDead(a)) && amount == 0)
      ensures View() == if ok && old(NotDead(a)) then SubBalance(old(View()), a, amount) else old(View())
    {
      hide ViewOf, Overlaid, Meaning, CachedOk, Cached.Add;
      ViewAt(cache, trie, a);
      EnsureCached(a, false, false);
      ViewAt(cache, trie, a);
      if a in cache { MeaningBalance(cache[a]); }
      if a !in cache || cache[a].balance < amount {
        if a in cache { DeadHoldsNothing(cache[a], db); }
        return false;
      }
      if !cache[a].alive {
        DeadHoldsNothing(cache[a], db);
        return true;
      }
      AddMeans(cache[a], 0 - amount, db);
      var c := cache[a].Add(0 - amount);
      PutKeeps(cache, trie, db, a, c);
      cache := cache[a := c];
      ok := true;
    }

    method AddressHasCode(a: Address) returns (r: bool)
      requires Valid()
      modifies this`cache
      ensures Valid() && View() == old(View()) && (r <==> HasCode(View(), a))
      ensures old(cache).Keys <= cache.Keys && (AllAlive(old(cache)) ==> AllAlive(cache))
    {
      hide ViewOf, Overlaid;
      ViewAt(cache, trie, a);
      EnsureCached(a, false, false);
      ViewAt(cache, trie, a);
      r := a in cache && (cache[a].Fresh() || cache[a].codeHash != EMPTY_SHA3);
    }

    method CodeAt(a: Address) returns (r: Code)
      requires Valid()
      modifies this`cache
      ensures Valid() && View() == old(View()) && r == (if a in View() then View()[a].code else [])
      ensures old(cache).Keys <= cache.Keys && (AllAlive(old(cache)) ==> AllAlive(cache))
    {
      var has := AddressHasCode(a);
      if !has {
        return [];
      }
      EnsureCached(a, true, false);
      r := cache[a].codeCache;
    }

    /** A storage read remembers what it found in the overlay, which marks the entry dirty but not the view. */
    method StorageAt(a: Address, key: nat) returns (r: nat)
      requires Valid()
      modifies this`cache
      ensures Valid() && View() == old(View())
      ensures r == if a in View() && key in View()[a].storage then View()[a].storage[key] else 0
      ensures old(cache).Keys <= cache.Keys && (AllAlive(old(cache)) ==> AllAlive(cache))
    {
      hide ViewOf, Overlaid;
      ViewAt(cache, trie, a);
      EnsureCached(a, false, false);
      ViewAt(cache, trie, a);
      if a !in cache {
        return 0;
      }
      var c := cache[a];
      OverlayAt(c.base, c.overlay, key);
      if key in c.overlay {
        return c.overlay[key];
      }
      r := if key in c.base then c.base[key] else 0;
      OverlayRead(c.base, c.overlay, key);
      SameMeaningKeeps(cache, trie, db, a, c.SetStorage(key, r));
      cache := cache[a := c.SetStorage(key, r)];
    }

    /** Frames write to their own, cached account; writing to any other makes it, or leaves it, a dead entry. */
    method SetStorageAt(a: Address, key: nat, value: nat)
      requires Valid()
      modifies this`cache
      ensures cache.Keys == old(cache).Keys + {a}
      ensures old(a in cache && cache[a].alive) ==>
        && Valid() && (AllAlive(old(cache)) ==> AllAlive(cache)) && a in old(View())
        && View() == old(View())[a := old(View())[a].(storage := SetSlot(old(View())[a].storage, key, value))]
      ensures !old(a in cache && cache[a].alive) ==> View() == old(View()) - {a} && (Valid() <==> value == 0)
    {
      hide ViewOf, Overlaid, Meaning, CachedOk, Consistent, Cached.SetStorage;
      ViewAt(cache, trie, a);
      var c := if a in cache then cache[a] else DEAD;
      StoresOnly(c, key, value);
      if c.alive {
        StoreMeans(cache, trie, db, a, key, value);
      } else {
        EntryOk(cache, trie, db, a);
        DeadMeans(c, db, key, value, 0);
        DeadPut(cache, trie, db, a, c.SetStorage(key, value));
      }
      cache := cache[a := c.SetStorage(key, value)];
    }

    /** The account of a contract under construction takes the place of whatever was there, keeping its balance. */
    method ConceiveAt(a: Address)
      requires Valid()
      modifies this`cache
      ensures Valid() && old(cache).Keys <= cache.Keys && a in cache && (AllAlive(old(cache)) ==> AllAlive(cache))
      ensures View() == old(View())[a := Account(startNonce, Balance(old(View()), a), map[], [], true)]
    {
      var balance := BalanceOf(a);
      var c := Cached(true, true, startNonce, balance, map[], map[], Conception, []);
      BalanceFitsAt(cache, trie, db, a);
      assert Overlaid(map[], map[]) == map[];
      PutKeeps(cache, trie, db, a, c);
      cache := cache[a := c];
    }

    /** Only an account in conception can be given code. */
    method SetCodeAt(a: Address, code: Code)
      requires Valid() && a in cache && cache[a].alive && cache[a].Fresh()
      modifies this`cache
      ensures Valid() && cache.Keys == old(cache).Keys && (AllAlive(old(cache)) ==> AllAlive(cache))
      ensures a in old(View()) && View() == old(View())[a := old(View())[a].(code := code)]
    {
      hide Overlaid;
      var c := cache[a].(codeCache := code, dirty := true);
      PutKeeps(cache, trie, db, a, c);
      cache := cache[a := c];
    }

    method KillAccount(a: Address)
      requires Valid()
      modifies this`cache
      ensures Valid() && View() == old(View()) - {a}
      ensures cache.Keys == old(cache).Keys + {a} && !cache[a].alive
    {
      var c := (if a in cache then cache[a] else DEAD).Kill();
      assert Overlaid(map[], map[]) == map[];
      ViewKill(cache, trie, a, c);
      cache := cache[a := c];
    }

    /** The storage trie after the overlay has been written into it, entry by entry. */
    method CommitStorage(base: Storage, overlay: Storage) returns (r: Storage)
      requires NoZeros(base)
      ensures r == Overlaid(base, overlay) && NoZeros(r)
    {
      hide Overlaid;
      OverlayNothing(base);
      r := base;
      ghost var done: Storage := map[];
      var todo := overlay.Keys;
      while todo != {}
        invariant todo <= overlay.Keys && done.Keys == overlay.Keys - todo
        invariant forall k :: k in done ==> done[k] == overlay[k]
        invariant r == Overlaid(base, done)
      {
        var k :| k in todo;
        OverlaySet(base, done, k, overlay[k]);
        if overlay[k] != 0 {
          r := r[k := overlay[k]];
        } else {
          r := r - {k};
        }
        done, todo := done[k := overlay[k]], todo - {k};
      }
      assert done == overlay;
      OverlaidNoZeros(base, overlay);
    }

    /** Writes one dirty entry back: into the trie if it is alive, out of it if it was killed. */
    method CommitOne(a: Address)
      requires a in cache && CachedOk(cache[a], db)
      modifies this`trie, this`db
      ensures !cache[a].alive ==> trie == old(trie) - {a} && db == old(db)
      ensures cache[a].alive ==>
        && a in trie && trie == old(trie)[a := trie[a]]
        && Leaf(trie[a]) == Meaning(cache[a]).(conceiving := false) && StoredOk(trie[a], db)
        && (db == old(db) || db == old(db)[Sha3(cache[a].codeCache) := cache[a].codeCache])
    {
      hide Overlaid;
      var c := cache[a];
      if !c.alive {
        trie := trie - {a};
      } else {
        var storage := CommitStorage(c.base, c.overlay);
        var hash := c.codeHash;
        if c.Fresh() {
          hash := Sha3(c.codeCache);
          db := db[hash := c.codeCache];
        }
        trie := trie[a := Stored(c.nonce, c.balance, storage, hash)];
      }
    }

    /**
      Writes every dirty entry back and empties the cache: balance, nonce, storage and code of every live
      address are as before, and killed addresses are gone.
     */
    method Commit()
      requires Valid()
      modifies this
      ensures Valid() && cache == map[]
      ensures View() == Settled(old(View()))
      ensures touched == old(touched) + DirtyIn(old(cache), old(cache).Keys)
    {
      hide Overlaid, Meaning, Leaf, ViewOf, CachedOk, StoredOk, Clean, Settled;
      ghost var before := trie;
      var todo := cache.Keys;
      while todo != {}
        invariant todo <= cache.Keys && cache == old(cache)
        invariant Written(cache, before, trie, cache.Keys - todo)
        invariant KnownAll(cache, trie, db)
        invariant touched == old(touched) + DirtyIn(cache, cache.Keys - todo)
      {
        var a :| a in todo;
        ghost var trie0, db0 := trie, db;
        if cache[a].dirty {
          CommitOne(a);
          WrittenOne(cache, before, trie0, trie, cache.Keys - todo, a);
          KnownOne(cache, trie0, db0, trie, db, a);
          touched := touched + {a};
        } else {
          WrittenClean(cache, before, trie, cache.Keys - todo, a);
        }
        assert cache.Keys - (todo - {a}) == cache.Keys - todo + {a};
        todo := todo - {a};
      }
      assert cache.Keys - {} == cache.Keys;
      WrittenView(cache, before, trie);
      cache := map[];
    }
  }

  function DirtyIn(cache: Cache, s: set<Address>): set<Address> {
    set a | a in s && a in cache && cache[a].dirty
  }

  /** Every code hash that is cached or stored can be looked up. */
  predicate KnownAll(cache: Cache, trie: Trie, db: CodeDb) {
    && (forall a :: a in cache ==> CachedOk(cache[a], db))
    && (forall a :: a in trie ==> StoredOk(trie[a], db))
  }

  lemma KnownOne(cache: Cache, trie: Trie, db: CodeDb, trie': Trie, db': CodeDb, a: Address)
    requires KnownAll(cache, trie, db) && a in cache
    requires db' == db || db' == db[Sha3(cache[a].codeCache) := cache[a].codeCache]
    requires trie' == trie - {a} || (a in trie' && trie' == trie[a := trie'[a]] && StoredOk(trie'[a], db'))
    ensures KnownAll(cache, trie', db')
  {
    hide Overlaid;
    assert forall h :: CodeKnown(h, db) ==> CodeKnown(h, db');
  }

  /** The entries in `done` have been written: trie' says what they mean, and is otherwise as before. */
  ghost predicate Written(cache: Cache, trie: Trie, trie': Trie, done: set<Address>) {
    && (forall a :: a in done && a in cache && cache[a].dirty ==>
          if cache[a].alive then a in trie' && Leaf(trie'[a]) == Meaning(cache[a]).(conceiving := false) else a !in trie')
    && (forall a :: !(a in done && a in cache && cache[a].dirty) ==>
          (a in trie' <==> a in trie) && (a in trie ==> trie'[a] == trie[a]))
  }

  lemma WrittenOne(cache: Cache, trie: Trie, trie0: Trie, trie1: Trie, done: set<Address>, a: Address)
    requires Written(cache, trie, trie0, done) && a in cache && cache[a].dirty && a !in done
    requires !cache[a].alive ==> trie1 == trie0 - {a}
    requires cache[a].alive ==> a in trie1 && trie1 == trie0[a := trie1[a]]
                                && Leaf(trie1[a]) == Meaning(cache[a]).(conceiving := false)
    ensures Written(cache, trie, trie1, done + {a})
  {
    hide Meaning, Leaf;
  }

  lemma WrittenClean(cache: Cache, trie: Trie, trie0: Trie, done: set<Address>, a: Address)
    requires Written(cache, trie, trie0, done) && a in cache && !cache[a].dirty
    ensures Written(cache, trie, trie0, done + {a})
  {
    hide Meaning, Leaf;
  }

  lemma WrittenView(cache: Cache, trie: Trie, trie': Trie)
    requires Written(cache, trie, trie', cache.Keys)
    requires forall a :: a in cache ==> Clean(cache[a], a, trie)
    ensures ViewOf(map[], trie') == Settled(ViewOf(cache, trie))
  {
    var w, w' := ViewOf(cache, trie), ViewOf(map[], trie');
    forall a ensures a in w' <==> a in w {
      if a in cache { assert Clean(cache[a], a, trie); }
    }
    forall a | a in w ensures w'[a] == w[a].(conceiving := false) {
      if a in cache { assert Clean(cache[a], a, trie); }
    }
  }
}
