/**
  Uncles: which headers a block may cite, how they are picked for a new block, and what that guarantees over
  whole chains of blocks whose citations have been checked.
 */
module Uncles {
  import opened Options
  import opened BlockTree

  /** `verified` says that the header passes verification against its parent's. */
  datatype Header = Header(parent: Hash, number: nat, author: nat, verified: bool)

  /** A hash determines its header, whether or not the block is stored. */
  type Headers = Hash -> Header

  /** The stored blocks, the uncles each of them cites, and the number of the current head. */
  datatype Family = Family(tree: Tree, genesis: Hash, uncles: map<Hash, seq<Hash>>, headNumber: nat)

  predicate Consistent(f: Family, hs: Headers) {
    && WellNumbered(f.tree, f.genesis) && f.uncles.Keys == f.tree.Keys
    && (forall h :: h in f.tree ==> hs(h).number == f.tree[h].number)
    && (forall h :: h in f.tree && h != f.genesis ==> hs(h).parent == f.tree[h].parent && hs(h).verified)
  }

  const GENERATIONS: nat := 6
  const MAX_UNCLES: nat := 2

  /** A block under consideration; its number is one more than its parent's. */
  datatype Current = Current(hash: Hash, parent: Hash)

  function NumberOf(f: Family, cur: Current): nat
    requires cur.parent in f.tree
  {
    f.tree[cur.parent].number + 1
  }

  // ---------- kin ----------

  /** What allKinFrom collects: p, its ancestors, and all that p and they have cited, `gens` generations up. */
  function Kin(f: Family, p: Hash, gens: nat): set<Hash>
    requires WellNumbered(f.tree, f.genesis) && f.uncles.Keys == f.tree.Keys && p in f.tree
    decreases gens
  {
    if gens == 0 || p == f.genesis then {p}
    else {p} + (set u | u in f.uncles[p]) + Kin(f, f.tree[p].parent, gens - 1)
  }

  method AllKinFrom(f: Family, parent: Hash, gens: nat) returns (ret: set<Hash>)
    requires WellNumbered(f.tree, f.genesis) && f.uncles.Keys == f.tree.Keys && parent in f.tree
    ensures ret == Kin(f, parent, gens)
  {
    hide WellNumbered;
    var p := parent;
    ret := {p};
    var i := 0;
    while i < gens && p != f.genesis
      invariant i <= gens && p in f.tree && p in ret
      invariant ret + Kin(f, p, gens - i) == Kin(f, parent, gens)
    {
      ParentKnown(f, p);
      ret := ret + {f.tree[p].parent} + (set u | u in f.uncles[p]);
      p := f.tree[p].parent;
      i := i + 1;
    }
  }

  lemma ParentKnown(f: Family, p: Hash)
    requires WellNumbered(f.tree, f.genesis) && p in f.tree && p != f.genesis
    ensures f.tree[p].parent in f.tree && f.tree[p].number == f.tree[f.tree[p].parent].number + 1
  {
  }

  /** h is one of the last gens + 1 blocks of p's chain, or cited by one of the last gens. */
  predicate IsKin(f: Family, p: Hash, gens: nat, h: Hash)
    requires WellNumbered(f.tree, f.genesis) && f.uncles.Keys == f.tree.Keys && p in f.tree
  {
    var c := Chain(f.tree, f.genesis, p);
    || (exists i :: 0 <= i < |c| && i + gens + 1 >= |c| && c[i] == h)
    || (exists i :: 1 <= i < |c| && i + gens >= |c| && h in f.uncles[c[i]])
  }

  lemma {:induction false} KinMeans(f: Family, p: Hash, gens: nat, h: Hash)
    requires WellNumbered(f.tree, f.genesis) && f.uncles.Keys == f.tree.Keys && p in f.tree
    ensures h in Kin(f, p, gens) <==> IsKin(f, p, gens, h)
    decreases gens
  {
    hide WellNumbered;
    var c := Chain(f.tree, f.genesis, p);
    if p != f.genesis { ParentKnown(f, p); }
    if gens == 0 || p == f.genesis {
      if h == p { assert c[|c| - 1] == h; }
    } else {
      var q := f.tree[p].parent;
      var d := Chain(f.tree, f.genesis, q);
      KinMeans(f, q, gens - 1, h);
      assert c == d + [p] && c[|c| - 1] == p;
      if h in Kin(f, p, gens) && h != p && h !in f.uncles[p] {
        if i :| 0 <= i < |d| && i + gens - 1 + 1 >= |d| && d[i] == h { assert c[i] == h; }
        else {
          var i :| 1 <= i < |d| && i + gens - 1 >= |d| && h in f.uncles[d[i]];
          assert c[i] == d[i];
        }
      }
    }
  }

  // ---------- checking a block's uncles ----------

  datatype Fault = TooManyUncles | UncleInChain | UnknownParent | UncleTooOld | UncleIsBrother | UncleParentNotInChain | UncleInvalid

  datatype Verdict = Rewarded(uncles: seq<Hash>) | Refused(fault: Fault)

  /** Details of an unknown block are null details, whose parent is the zero hash. */
  function ParentOf(t: Tree, h: Hash): Hash {
    if h in t then t[h].parent else NO_HASH
  }

  function Up(t: Tree, h: Hash, n: nat): Hash
    decreases n
  {
    if n == 0 then h else Up(t, ParentOf(t, h), n - 1)
  }

  /** Stored and not above the head. */
  predicate IsCurrent(f: Family, h: Hash) {
    h in f.tree && (h == f.genesis || f.tree[h].number <= f.headNumber)
  }

  /** How many generations before the current block the uncle is. */
  function Depth(f: Family, hs: Headers, cur: Current, u: Hash): int
    requires cur.parent in f.tree
  {
    NumberOf(f, cur) - hs(u).number
  }

  /** The first check that an uncle fails, if any. */
  function FirstFault(f: Family, hs: Headers, cur: Current, excluded: set<Hash>, u: Hash): Option<Fault>
    requires cur.parent in f.tree
  {
    if u in excluded then Some(UncleInChain)
    else if !IsCurrent(f, hs(u).parent) then Some(UnknownParent)
    else if Depth(f, hs, cur, u) > GENERATIONS then Some(UncleTooOld)
    else if Depth(f, hs, cur, u) < 1 then Some(UncleIsBrother)
    else if Up(f.tree, ParentOf(f.tree, cur.parent), Depth(f, hs, cur, u) - 1) != hs(u).parent then Some(UncleParentNotInChain)
    else if !hs(u).verified then Some(UncleInvalid)
    else None
  }

  /** What a block may cite, said of chains: the uncle's parent is the ancestor `depth` generations above the parent. */
  predicate IsUncle(f: Family, hs: Headers, cur: Current, u: Hash)
    requires Consistent(f, hs) && cur.parent in f.tree
  {
    var c, d := Chain(f.tree, f.genesis, cur.parent), Depth(f, hs, cur, u);
    && 1 <= d <= GENERATIONS && d < |c| && hs(u).parent == c[|c| - 1 - d]
    && hs(u).verified && u !in Kin(f, cur.parent, GENERATIONS) && u != cur.hash
  }

  /** A block's citations as the protocol allows them. */
  predicate MayCite(f: Family, hs: Headers, cur: Current, us: seq<Hash>)
    requires Consistent(f, hs) && cur.parent in f.tree
  {
    |us| <= MAX_UNCLES && Distinct(us) && (forall u :: u in us ==> IsUncle(f, hs, cur, u))
  }

  lemma {:induction false} UpIsAncestor(f: Family, h: Hash, n: nat)
    requires WellNumbered(f.tree, f.genesis) && h in f.tree
    ensures var c := Chain(f.tree, f.genesis, h);
      Up(f.tree, ParentOf(f.tree, h), n) == if n + 1 < |c| then c[|c| - 2 - n] else NO_HASH
    decreases n
  {
    hide WellNumbered;
    GenesisAlone(f);
    if h == f.genesis {
      UpNowhere(f.tree, n);
    } else {
      ParentKnown(f, h);
      if n > 0 { UpIsAncestor(f, f.tree[h].parent, n - 1); }
    }
  }

  lemma {:induction false} UpNowhere(t: Tree, n: nat)
    requires NO_HASH !in t
    ensures Up(t, NO_HASH, n) == NO_HASH
  {
    if n > 0 { UpNowhere(t, n - 1); }
  }

  /** Kin, the block itself, and what it has cited so far. */
  function Excluded(f: Family, cur: Current, cited: seq<Hash>): set<Hash>
    requires WellNumbered(f.tree, f.genesis) && f.uncles.Keys == f.tree.Keys && cur.parent in f.tree
  {
    Kin(f, cur.parent, GENERATIONS) + {cur.hash} + set u | u in cited
  }

  lemma ExcludedPush(f: Family, cur: Current, cited: seq<Hash>, u: Hash)
    requires WellNumbered(f.tree, f.genesis) && f.uncles.Keys == f.tree.Keys && cur.parent in f.tree
    ensures Excluded(f, cur, cited + [u]) == Excluded(f, cur, cited) + {u}
    ensures Excluded(f, cur, []) == Kin(f, cur.parent, GENERATIONS) + {cur.hash}
  {
    hide WellNumbered, Kin;
  }

  /** An uncle passes the checks exactly if it is one, its parent is current and it is not cited already. */
  lemma NoFaultIff(f: Family, hs: Headers, cur: Current, cited: seq<Hash>, u: Hash)
    requires Consistent(f, hs) && cur.parent in f.tree
    ensures FirstFault(f, hs, cur, Excluded(f, cur, cited), u).None?
            <==> IsUncle(f, hs, cur, u) && IsCurrent(f, hs(u).parent) && u !in cited
  {
    hide WellNumbered, Chain, Kin, Up;
    if 1 <= Depth(f, hs, cur, u) { UpIsAncestor(f, cur.parent, Depth(f, hs, cur, u) - 1); }
    GenesisAlone(f);
  }

  lemma GenesisIsStored(f: Family)
    requires WellNumbered(f.tree, f.genesis)
    ensures f.genesis in f.tree
  {
  }

  lemma GenesisAlone(f: Family)
    requires WellNumbered(f.tree, f.genesis)
    ensures NO_HASH !in f.tree && f.tree[f.genesis].parent == NO_HASH
  {
  }

  /**
    The uncle part of enacting a block: it is accepted exactly if it may cite these uncles and their parents
    are current, and all of them are rewarded.
   */
  method CheckUncles(f: Family, hs: Headers, cur: Current, us: seq<Hash>) returns (v: Verdict)
    requires Consistent(f, hs) && cur.parent in f.tree
    ensures v.Rewarded? <==> MayCite(f, hs, cur, us) && forall u :: u in us ==> IsCurrent(f, hs(u).parent)
    ensures v.Rewarded? ==> v.uncles == us
    ensures v == Refused(TooManyUncles) <==> |us| > MAX_UNCLES
    ensures v.Refused? && |us| <= MAX_UNCLES ==> IsFirstFault(f, hs, cur, us, v.fault)
  {
    if |us| > MAX_UNCLES { return Refused(TooManyUncles); }
    hide WellNumbered, Kin, IsUncle, IsCurrent, FirstFault, AllGood, Excluded, Distinct, IsFirstFault, MayCite;
    GoodMeans(f, hs, cur, us);
    var rewarded := [];
    var kin := AllKin(f, hs, cur.parent);
    var excluded := kin + {cur.hash};
    NoneGood(f, hs, cur);
    ExcludedPush(f, cur, [], cur.hash);
    for i := 0 to |us|
      invariant rewarded == us[..i] && AllGood(f, hs, cur, us[..i])
      invariant excluded == Excluded(f, cur, us[..i])
    {
      var u := us[i];
      UncleStep(f, hs, cur, us, i);
      var fault := CheckUncle(f, hs, cur, excluded, u);
      if fault.Some? {
        FoundFault(f, hs, cur, us, fault.value, i);
        return Refused(fault.value);
      }
      excluded := excluded + {u};
      rewarded := rewarded + [u];
    }
    assert us[..|us|] == us;
    v := Rewarded(rewarded);
  }

  /** All that the checks on the single uncles demand together. */
  predicate AllGood(f: Family, hs: Headers, cur: Current, us: seq<Hash>)
    requires Consistent(f, hs) && cur.parent in f.tree
  {
    Distinct(us) && (forall u :: u in us ==> IsUncle(f, hs, cur, u)) && forall u :: u in us ==> IsCurrent(f, hs(u).parent)
  }

  /** The fault of the first uncle that has one. */
  predicate IsFirstFault(f: Family, hs: Headers, cur: Current, us: seq<Hash>, fault: Fault)
    requires Consistent(f, hs) && cur.parent in f.tree
  {
    exists i :: 0 <= i < |us| && AllGood(f, hs, cur, us[..i]) &&
                FirstFault(f, hs, cur, Excluded(f, cur, us[..i]), us[i]) == Some(fault)
  }

  lemma FoundFault(f: Family, hs: Headers, cur: Current, us: seq<Hash>, fault: Fault, i: nat)
    requires Consistent(f, hs) && cur.parent in f.tree && i < |us| && AllGood(f, hs, cur, us[..i])
    requires FirstFault(f, hs, cur, Excluded(f, cur, us[..i]), us[i]) == Some(fault)
    ensures IsFirstFault(f, hs, cur, us, fault)
  {
  }

  lemma NoneGood(f: Family, hs: Headers, cur: Current)
    requires Consistent(f, hs) && cur.parent in f.tree
    ensures AllGood(f, hs, cur, [])
  {
  }

  lemma GoodMeans(f: Family, hs: Headers, cur: Current, us: seq<Hash>)
    requires Consistent(f, hs) && cur.parent in f.tree && |us| <= MAX_UNCLES
    ensures AllGood(f, hs, cur, us) <==> MayCite(f, hs, cur, us) && forall u :: u in us ==> IsCurrent(f, hs(u).parent)
  {
    hide Consistent, IsUncle, IsCurrent;
  }

  /** One more uncle is good if it is one itself and new; if it is not, neither are all. */
  lemma GoodStep(f: Family, hs: Headers, cur: Current, us: seq<Hash>, i: nat)
    requires Consistent(f, hs) && cur.parent in f.tree && i < |us| && AllGood(f, hs, cur, us[..i])
    ensures IsUncle(f, hs, cur, us[i]) && IsCurrent(f, hs(us[i]).parent) && us[i] !in us[..i]
            <==> AllGood(f, hs, cur, us[..i + 1])
    ensures AllGood(f, hs, cur, us) ==> AllGood(f, hs, cur, us[..i + 1])
  {
    hide Consistent, IsUncle, IsCurrent;
    assert us[..i + 1] == us[..i] + [us[i]];
    if us[i] !in us[..i] { DistinctAppend(us[..i], [us[i]]); }
    assert us[i] in us && us[i] in us[..i + 1];
    forall u | u in us[..i + 1] ensures u in us {}
  }

  /** One uncle more: it has no fault exactly if all so far are good with it, and it is excluded from then on. */
  lemma UncleStep(f: Family, hs: Headers, cur: Current, us: seq<Hash>, i: nat)
    requires Consistent(f, hs) && cur.parent in f.tree && i < |us| && AllGood(f, hs, cur, us[..i])
    ensures us[..i + 1] == us[..i] + [us[i]]
    ensures FirstFault(f, hs, cur, Excluded(f, cur, us[..i]), us[i]).None? <==> AllGood(f, hs, cur, us[..i + 1])
    ensures Excluded(f, cur, us[..i + 1]) == Excluded(f, cur, us[..i]) + {us[i]}
    ensures AllGood(f, hs, cur, us) ==> AllGood(f, hs, cur, us[..i + 1])
  {
    hide WellNumbered, Kin, IsUncle, IsCurrent, FirstFault, AllGood, Excluded;
    NoFaultIff(f, hs, cur, us[..i], us[i]);
    ExcludedPush(f, cur, us[..i], us[i]);
    GoodStep(f, hs, cur, us, i);
    assert us[..i + 1] == us[..i] + [us[i]];
  }

  method AllKin(f: Family, hs: Headers, p: Hash) returns (kin: set<Hash>)
    requires Consistent(f, hs) && p in f.tree
    ensures kin == Kin(f, p, GENERATIONS)
  {
    kin := AllKinFrom(f, p, GENERATIONS);
  }

  /** The checks on one uncle, with the walk up to where its parent has to be. */
  method CheckUncle(f: Family, hs: Headers, cur: Current, excluded: set<Hash>, u: Hash) returns (r: Option<Fault>)
    requires cur.parent in f.tree
    ensures r == FirstFault(f, hs, cur, excluded, u)
    ensures r != Some(TooManyUncles)
  {
    if u in excluded { return Some(UncleInChain); }
    if !IsCurrent(f, hs(u).parent) { return Some(UnknownParent); }
    var depth := NumberOf(f, cur) - hs(u).number;
    if depth > GENERATIONS { return Some(UncleTooOld); }
    if depth < 1 { return Some(UncleIsBrother); }
    var expected := ParentOf(f.tree, cur.parent);
    ghost var start := expected;
    var i := 1;
    while i < depth
      invariant 1 <= i <= depth && Up(f.tree, expected, depth - i) == Up(f.tree, start, depth - 1)
    {
      expected := ParentOf(f.tree, expected);
      i := i + 1;
    }
    if expected != hs(u).parent { return Some(UncleParentNotInChain); }
    if !hs(u).verified { return Some(UncleInvalid); }
    r := None;
  }

  // ---------- whole chains ----------

  /** Every stored block cites only what it may. */
  predicate AllEnacted(f: Family, hs: Headers) {
    && Consistent(f, hs)
    && (forall h {:trigger IsEnacted(f, hs, h)} :: h in f.tree && h != f.genesis ==> IsEnacted(f, hs, h))
  }

  predicate IsEnacted(f: Family, hs: Headers, h: Hash)
    requires Consistent(f, hs) && h in f.tree && h != f.genesis
  {
    MayCite(f, hs, Current(h, f.tree[h].parent), f.uncles[h])
  }

  /** Every rewarded uncle is the child of an ancestor 2 to 7 generations back. */
  lemma UncleGeneration(f: Family, hs: Headers, head: Hash, i: nat, u: Hash)
    requires AllEnacted(f, hs) && head in f.tree
    requires var c := Chain(f.tree, f.genesis, head); 1 <= i < |c| && u in f.uncles[c[i]]
    ensures var c := Chain(f.tree, f.genesis, head);
      2 <= i + 1 - hs(u).number <= 7 && 1 <= hs(u).number && hs(u).parent == c[hs(u).number - 1]
    ensures var c := Chain(f.tree, f.genesis, head);
      f.tree[c[i]].parent == c[i - 1] && c[i - 1] in f.tree && u !in Kin(f, c[i - 1], GENERATIONS) && u != c[i]
      && Chain(f.tree, f.genesis, c[i - 1]) == c[..i]
  {
    hide WellNumbered, Chain, Kin;
    var c := Chain(f.tree, f.genesis, head);
    ChainStep(f.tree, f.genesis, head, i);
    ChainPrefix(f.tree, f.genesis, head, i - 1);
    assert IsEnacted(f, hs, c[i]);
    assert IsUncle(f, hs, Current(c[i], c[i - 1]), u);
    assert c[i - 1] == c[..i][i - 1];
  }

  /** No block of a chain is ever cited as an uncle in that chain. */
  lemma NeverAncestor(f: Family, hs: Headers, head: Hash, i: nat, u: Hash)
    requires AllEnacted(f, hs) && head in f.tree
    requires var c := Chain(f.tree, f.genesis, head); 1 <= i < |c| && u in f.uncles[c[i]]
    ensures u !in Chain(f.tree, f.genesis, head)
  {
    hide Chain, Kin, MayCite, WellNumbered;
    var c := Chain(f.tree, f.genesis, head);
    UncleGeneration(f, hs, head, i, u);
    KinMeans(f, c[i - 1], GENERATIONS, u);
    forall n | 0 <= n < |c| ensures c[n] != u {
      ChainPrefix(f.tree, f.genesis, head, n);
      assert n < i ==> c[..i][n] == c[n];
    }
  }

  /** What one block of a chain cites no later block of the chain cites again. */
  lemma NeverTwice(f: Family, hs: Headers, head: Hash, i: nat, j: nat, u: Hash)
    requires AllEnacted(f, hs) && head in f.tree
    requires var c := Chain(f.tree, f.genesis, head); 1 <= i < j < |c| && u in f.uncles[c[i]]
    ensures u !in f.uncles[Chain(f.tree, f.genesis, head)[j]]
  {
    hide Chain, Kin, MayCite, WellNumbered;
    var c := Chain(f.tree, f.genesis, head);
    UncleGeneration(f, hs, head, i, u);
    ChainPrefix(f.tree, f.genesis, head, j - 1);
    KinMeans(f, c[j - 1], GENERATIONS, u);
    assert c[..j][i] == c[i];
    if u in f.uncles[c[j]] { UncleGeneration(f, hs, head, j, u); }
  }

  /** All that the first n blocks after the genesis block have cited, in order. */
  function Cited(f: Family, c: seq<Hash>, n: nat): seq<Hash>
    requires n < |c| && forall h :: h in c ==> h in f.uncles
  {
    if n == 0 then [] else Cited(f, c, n - 1) + f.uncles[c[n]]
  }

  /** Over the whole history of any head, no uncle is rewarded twice and no ancestor is rewarded as an uncle. */
  lemma {:induction false} RewardedOnce(f: Family, hs: Headers, head: Hash, n: nat)
    requires AllEnacted(f, hs) && head in f.tree && n < |Chain(f.tree, f.genesis, head)|
    ensures var c := Chain(f.tree, f.genesis, head);
      Distinct(Cited(f, c, n)) && forall u :: u in Cited(f, c, n) ==> u !in c && exists i :: 1 <= i <= n && u in f.uncles[c[i]]
  {
    hide Chain, Kin, WellNumbered, IsUncle;
    var c := Chain(f.tree, f.genesis, head);
    if n > 0 {
      RewardedOnce(f, hs, head, n - 1);
      var before, here := Cited(f, c, n - 1), f.uncles[c[n]];
      ChainStep(f.tree, f.genesis, head, n);
      assert IsEnacted(f, hs, c[n]);
      forall u | u in here ensures u !in c && u !in before {
        NeverAncestor(f, hs, head, n, u);
        if u in before {
          var i :| 1 <= i <= n - 1 && u in f.uncles[c[i]];
          NeverTwice(f, hs, head, i, n, u);
        }
      }
      DistinctAppend(before, here);
    }
  }

  // ---------- growing chains ----------

  /** A block that has been enacted, with its difficulty so far and its citations. */
  datatype Added = Added(hash: Hash, parent: Hash, totalDifficulty: nat, uncles: seq<Hash>, headNumber: nat)

  /** The block is new and its header is what its hash says; enacting it found no fault. */
  predicate CanAdd(f: Family, hs: Headers, a: Added)
    requires Consistent(f, hs)
  {
    && a.hash != NO_HASH && a.hash !in f.tree && a.parent in f.tree
    && hs(a.hash).number == f.tree[a.parent].number + 1 && hs(a.hash).parent == a.parent && hs(a.hash).verified
    && MayCite(f, hs, Current(a.hash, a.parent), a.uncles)
  }

  function Grow(f: Family, a: Added): Family
    requires a.parent in f.tree
  {
    Family(f.tree[a.hash := Details(f.tree[a.parent].number + 1, a.totalDifficulty, a.parent)], f.genesis,
           f.uncles[a.hash := a.uncles], a.headNumber)
  }

  lemma {:induction false} KinStable(f: Family, hs: Headers, a: Added, p: Hash, gens: nat)
    requires Consistent(f, hs) && CanAdd(f, hs, a) && Consistent(Grow(f, a), hs) && p in f.tree
    ensures Kin(Grow(f, a), p, gens) == Kin(f, p, gens)
    decreases gens
  {
    hide MayCite, WellNumbered;
    if gens > 0 && p != f.genesis {
      ParentKnown(f, p);
      KinStable(f, hs, a, f.tree[p].parent, gens - 1);
    }
  }

  lemma MayCiteStable(f: Family, hs: Headers, a: Added, cur: Current, us: seq<Hash>)
    requires Consistent(f, hs) && CanAdd(f, hs, a) && Consistent(Grow(f, a), hs) && cur.parent in f.tree
    ensures MayCite(Grow(f, a), hs, cur, us) == MayCite(f, hs, cur, us)
  {
    hide Kin, Chain, WellNumbered;
    KinStable(f, hs, a, cur.parent, GENERATIONS);
    ChainStable(f.tree, f.genesis, cur.parent, a.hash, Grow(f, a).tree[a.hash]);
    assert forall u :: IsUncle(Grow(f, a), hs, cur, u) == IsUncle(f, hs, cur, u);
  }

  lemma GrowConsistent(f: Family, hs: Headers, a: Added)
    requires Consistent(f, hs) && CanAdd(f, hs, a)
    ensures Consistent(Grow(f, a), hs)
  {
    hide MayCite, WellNumbered;
    assert a.hash != f.genesis by { GenesisIsStored(f); }
    StoredNumbered(f.tree, f.genesis, a.hash, Details(f.tree[a.parent].number + 1, a.totalDifficulty, a.parent));
  }

  lemma GrowKeeps(f: Family, hs: Headers, a: Added)
    requires AllEnacted(f, hs) && CanAdd(f, hs, a)
    ensures AllEnacted(Grow(f, a), hs)
  {
    hide MayCite, WellNumbered;
    var f' := Grow(f, a);
    GrowConsistent(f, hs, a);
    forall h | h in f'.tree && h != f'.genesis ensures IsEnacted(f', hs, h) {
      if h == a.hash {
        MayCiteStable(f, hs, a, Current(h, a.parent), a.uncles);
      } else {
        assert IsEnacted(f, hs, h);
        ParentKnown(f, h);
        MayCiteStable(f, hs, a, Current(h, f.tree[h].parent), f.uncles[h]);
      }
    }
  }

  predicate IsHistory(f: Family, hs: Headers, adds: seq<Added>)
    requires AllEnacted(f, hs)
    decreases |adds|
  {
    adds == [] || (CanAdd(f, hs, adds[0]) && (GrowKeeps(f, hs, adds[0]); IsHistory(Grow(f, adds[0]), hs, adds[1..])))
  }

  function Grown(f: Family, hs: Headers, adds: seq<Added>): Family
    requires AllEnacted(f, hs) && IsHistory(f, hs, adds)
    decreases |adds|
  {
    if adds == [] then f
    else
      GrowKeeps(f, hs, adds[0]);
      Grown(Grow(f, adds[0]), hs, adds[1..])
  }

  lemma {:induction false} HistoryKeeps(f: Family, hs: Headers, adds: seq<Added>)
    requires AllEnacted(f, hs) && IsHistory(f, hs, adds)
    ensures AllEnacted(Grown(f, hs, adds), hs)
    decreases |adds|
  {
    if adds != [] {
      GrowKeeps(f, hs, adds[0]);
      HistoryKeeps(Grow(f, adds[0]), hs, adds[1..]);
    }
  }

  function Start(genesis: Hash, totalDifficulty: nat): Family {
    Family(map[genesis := Details(0, totalDifficulty, NO_HASH)], genesis, map[genesis := []], 0)
  }

  lemma StartEnacted(hs: Headers, genesis: Hash, totalDifficulty: nat)
    requires genesis != NO_HASH && hs(genesis).number == 0
    ensures AllEnacted(Start(genesis, totalDifficulty), hs)
  {
  }

  predicate IsGenesisHistory(hs: Headers, genesis: Hash, totalDifficulty: nat, adds: seq<Added>) {
    && genesis != NO_HASH && hs(genesis).number == 0
    && (StartEnacted(hs, genesis, totalDifficulty); IsHistory(Start(genesis, totalDifficulty), hs, adds))
  }

  function Reached(hs: Headers, genesis: Hash, totalDifficulty: nat, adds: seq<Added>): Family
    requires IsGenesisHistory(hs, genesis, totalDifficulty, adds)
  {
    Grown(Start(genesis, totalDifficulty), hs, adds)
  }

  /** However the tree of enacted blocks has grown, on each of its chains every uncle was rewarded at most once. */
  lemma RewardedOnceInEveryHistory(hs: Headers, genesis: Hash, totalDifficulty: nat, adds: seq<Added>, head: Hash)
    requires IsGenesisHistory(hs, genesis, totalDifficulty, adds)
    requires head in Reached(hs, genesis, totalDifficulty, adds).tree
    ensures var f := Reached(hs, genesis, totalDifficulty, adds);
      && Consistent(f, hs)
      && var c := Chain(f.tree, f.genesis, head);
      Distinct(Cited(f, c, |c| - 1)) && forall u :: u in Cited(f, c, |c| - 1) ==> u !in c
  {
    hide Chain, Cited, IsEnacted, IsHistory, Grown, WellNumbered, Start;
    StartEnacted(hs, genesis, totalDifficulty);
    HistoryKeeps(Start(genesis, totalDifficulty), hs, adds);
    var f := Reached(hs, genesis, totalDifficulty, adds);
    RewardedOnce(f, hs, head, |Chain(f.tree, f.genesis, head)| - 1);
  }

  // ---------- picking uncles ----------

  /** The children recorded for a block are stored and are its children; one may be listed more than once. */
  predicate ChildrenOk(f: Family, children: map<Hash, seq<Hash>>) {
    && f.tree.Keys <= children.Keys
    && (forall p :: p in f.tree ==> forall u :: u in children[p] ==> IsChild(f, p, u))
  }

  predicate ListedOnce(f: Family, children: map<Hash, seq<Hash>>)
    requires ChildrenOk(f, children)
  {
    forall p :: p in f.tree ==> Distinct(children[p])
  }

  predicate IsChild(f: Family, p: Hash, u: Hash) {
    u in f.tree && u != f.genesis && f.tree[u].parent == p
  }

  /** The ancestor d generations above the parent. */
  function Elder(f: Family, cur: Current, d: nat): (h: Hash)
    requires WellNumbered(f.tree, f.genesis) && cur.parent in f.tree && d <= f.tree[cur.parent].number
    ensures h in f.tree
  {
    Chain(f.tree, f.genesis, cur.parent)[f.tree[cur.parent].number - d]
  }

  lemma ElderStep(f: Family, cur: Current, d: nat)
    requires WellNumbered(f.tree, f.genesis) && cur.parent in f.tree && d <= f.tree[cur.parent].number
    ensures f.tree[Elder(f, cur, d)].number == f.tree[cur.parent].number - d
    ensures Elder(f, cur, d) == f.genesis <==> d == f.tree[cur.parent].number
    ensures d < f.tree[cur.parent].number ==> f.tree[Elder(f, cur, d)].parent == Elder(f, cur, d + 1)
  {
    hide WellNumbered, Chain;
    var n: nat := f.tree[cur.parent].number - d;
    ChainPrefix(f.tree, f.genesis, cur.parent, n);
    ChainPrefix(f.tree, f.genesis, cur.parent, 0);
    if n > 0 { ChainStep(f.tree, f.genesis, cur.parent, n); }
  }

  /** A child of the ancestor d generations above the parent that is no kin may be cited. */
  lemma ChildIsUncle(f: Family, hs: Headers, cur: Current, d: nat, u: Hash)
    requires Consistent(f, hs) && cur.parent in f.tree && cur.hash !in f.tree
    requires 1 <= d <= GENERATIONS && d <= f.tree[cur.parent].number
    requires IsChild(f, Elder(f, cur, d), u) && u !in Kin(f, cur.parent, GENERATIONS)
    ensures IsUncle(f, hs, cur, u) && u in f.tree && f.tree[u].number == f.tree[cur.parent].number - d + 1
  {
    hide Chain, Kin, WellNumbered;
    ElderStep(f, cur, d);
    ParentKnown(f, u);
  }

  /** The children that are no kin. */
  function Eligible(kids: seq<Hash>, excluded: set<Hash>): (r: seq<Hash>)
    ensures forall u :: u in r <==> u in kids && u !in excluded
  {
    if kids == [] then []
    else if kids[0] in excluded then Eligible(kids[1..], excluded)
    else [kids[0]] + Eligible(kids[1..], excluded)
  }

  /** All that can be picked, in order: generation after generation, children of the genesis block aside. */
  function Candidates(f: Family, children: map<Hash, seq<Hash>>, cur: Current, d: nat): seq<Hash>
    requires WellNumbered(f.tree, f.genesis) && f.uncles.Keys == f.tree.Keys && ChildrenOk(f, children) && cur.parent in f.tree
    decreases GENERATIONS + 1 - d
  {
    if d > GENERATIONS || d >= f.tree[cur.parent].number then []
    else Eligible(children[Elder(f, cur, d)], Kin(f, cur.parent, GENERATIONS)) + Candidates(f, children, cur, d + 1)
  }

  function FirstTwo(s: seq<Hash>): seq<Hash> {
    if |s| <= MAX_UNCLES then s else s[..MAX_UNCLES]
  }

  lemma {:induction false} CandidatesAreUncles(f: Family, hs: Headers, children: map<Hash, seq<Hash>>, cur: Current, d: nat, u: Hash)
    requires Consistent(f, hs) && ChildrenOk(f, children) && cur.parent in f.tree && cur.hash !in f.tree
    requires d >= 1 && u in Candidates(f, children, cur, d)
    ensures IsUncle(f, hs, cur, u) && u in f.tree && f.tree[u].number + d <= f.tree[cur.parent].number + 1
    decreases GENERATIONS + 1 - d
  {
    hide Kin, Elder, IsUncle, WellNumbered;
    if u in Eligible(children[Elder(f, cur, d)], Kin(f, cur.parent, GENERATIONS)) {
      ChildIsUncle(f, hs, cur, d, u);
    } else {
      CandidatesAreUncles(f, hs, children, cur, d + 1, u);
    }
  }

  lemma {:induction false} EligibleOnce(kids: seq<Hash>, excluded: set<Hash>)
    requires Distinct(kids)
    ensures Distinct(Eligible(kids, excluded))
  {
    if kids != [] {
      EligibleOnce(kids[1..], excluded);
      if kids[0] !in excluded { DistinctAppend([kids[0]], Eligible(kids[1..], excluded)); }
    }
  }

  lemma NoneDistinct()
    ensures Distinct([])
  {
  }

  /** With children listed once, no candidate comes twice: different generations have different numbers. */
  lemma {:induction false} CandidatesOnce(f: Family, hs: Headers, children: map<Hash, seq<Hash>>, cur: Current, d: nat)
    requires Consistent(f, hs) && ChildrenOk(f, children) && ListedOnce(f, children)
    requires cur.parent in f.tree && cur.hash !in f.tree && d >= 1
    ensures Distinct(Candidates(f, children, cur, d))
    decreases GENERATIONS + 1 - d
  {
    hide Kin, Elder, IsUncle, WellNumbered, Distinct, Candidates, Eligible;
    CandidatesStep(f, children, cur, d);
    NoneDistinct();
    if d <= GENERATIONS && d < f.tree[cur.parent].number {
      var here, rest := Eligible(children[Elder(f, cur, d)], Kin(f, cur.parent, GENERATIONS)), Candidates(f, children, cur, d + 1);
      EligibleOnce(children[Elder(f, cur, d)], Kin(f, cur.parent, GENERATIONS));
      CandidatesOnce(f, hs, children, cur, d + 1);
      forall u | u in rest ensures u !in here {
        CandidatesAreUncles(f, hs, children, cur, d + 1, u);
        if u in here { ChildIsUncle(f, hs, cur, d, u); }
      }
      DistinctAppend(here, rest);
    }
  }

  /** The first two entries of a list that are no kin are the same block. */
  predicate ComesTwice(kids: seq<Hash>, excluded: set<Hash>) {
    exists i, j :: 0 <= i < j < |kids| && kids[i] == kids[j] && kids[i] !in excluded
                   && forall k :: 0 <= k < j && k != i ==> kids[k] in excluded
  }

  predicate NoneEligible(kids: seq<Hash>, excluded: set<Hash>) {
    forall u :: u in kids ==> u in excluded
  }

  /** From generation d on, the first list with a child that is no kin has the same such child first and second. */
  predicate PicksTwice(f: Family, children: map<Hash, seq<Hash>>, cur: Current, d: nat)
    requires WellNumbered(f.tree, f.genesis) && f.uncles.Keys == f.tree.Keys && ChildrenOk(f, children) && cur.parent in f.tree
  {
    var kin := Kin(f, cur.parent, GENERATIONS);
    exists e :: d <= e <= GENERATIONS && e < f.tree[cur.parent].number && ComesTwice(children[Elder(f, cur, e)], kin)
                && forall k :: d <= k < e ==> NoneEligible(children[Elder(f, cur, k)], kin)
  }

  lemma NoneEligibleIff(kids: seq<Hash>, excluded: set<Hash>)
    ensures NoneEligible(kids, excluded) <==> Eligible(kids, excluded) == []
  {
    hide Eligible;
    var e := Eligible(kids, excluded);
    if e != [] { assert e[0] in e; }
    if u :| u in kids && u !in excluded { assert u in e; }
  }

  /** The first child that is no kin, and the rest of the list. */
  lemma {:induction false} FirstEligible(kids: seq<Hash>, excluded: set<Hash>) returns (i: nat)
    requires Eligible(kids, excluded) != []
    ensures i < |kids| && kids[i] !in excluded && forall k :: 0 <= k < i ==> kids[k] in excluded
    ensures Eligible(kids, excluded) == [kids[i]] + Eligible(kids[i + 1..], excluded)
  {
    if kids[0] !in excluded {
      i := 0;
    } else {
      var n := FirstEligible(kids[1..], excluded);
      assert kids[1..][n + 1..] == kids[n + 2..];
      i := n + 1;
    }
  }

  lemma ComesTwiceIff(kids: seq<Hash>, excluded: set<Hash>)
    ensures ComesTwice(kids, excluded)
            <==> var e := Eligible(kids, excluded); |e| >= 2 && e[0] == e[1]
  {
    hide Eligible, ComesTwice, NoneEligible;
    if Eligible(kids, excluded) != [] {
      var i := FirstEligible(kids, excluded);
      if Eligible(kids[i + 1..], excluded) != [] {
        var n := FirstEligible(kids[i + 1..], excluded);
        SecondEligible(kids, excluded, i, n);
      } else {
        NoneEligibleIff(kids[i + 1..], excluded);
        OneEligible(kids, excluded, i);
      }
    } else {
      NoneEligibleIff(kids, excluded);
      NoneTwice(kids, excluded);
    }
  }

  lemma NoneTwice(kids: seq<Hash>, excluded: set<Hash>)
    requires NoneEligible(kids, excluded)
    ensures !ComesTwice(kids, excluded)
  {
  }

  /** The second child that is no kin is the n-th after the first. */
  lemma SecondEligible(kids: seq<Hash>, excluded: set<Hash>, i: nat, n: nat)
    requires i < |kids| && kids[i] !in excluded && (forall k :: 0 <= k < i ==> kids[k] in excluded)
    requires var rest := kids[i + 1..]; n < |rest| && rest[n] !in excluded && forall k :: 0 <= k < n ==> rest[k] in excluded
    ensures ComesTwice(kids, excluded) <==> kids[i] == kids[i + 1..][n]
  {
    var rest, j := kids[i + 1..], i + 1 + n;
    forall k | 0 <= k < j && k != i ensures kids[k] in excluded {
      if k > i { assert kids[k] == rest[k - i - 1]; }
    }
    SecondAt(kids, excluded, i, j);
  }

  lemma SecondAt(kids: seq<Hash>, excluded: set<Hash>, i: nat, j: nat)
    requires i < j < |kids| && kids[i] !in excluded && kids[j] !in excluded
    requires forall k :: 0 <= k < j && k != i ==> kids[k] in excluded
    ensures ComesTwice(kids, excluded) <==> kids[i] == kids[j]
  {
  }

  lemma OneEligible(kids: seq<Hash>, excluded: set<Hash>, i: nat)
    requires i < |kids| && (forall k :: 0 <= k < i ==> kids[k] in excluded) && NoneEligible(kids[i + 1..], excluded)
    ensures !ComesTwice(kids, excluded)
  {
    forall k | i < k < |kids| ensures kids[k] in excluded { assert kids[k] == kids[i + 1..][k - i - 1]; }
  }

  lemma PicksTwiceStep(f: Family, children: map<Hash, seq<Hash>>, cur: Current, d: nat)
    requires WellNumbered(f.tree, f.genesis) && f.uncles.Keys == f.tree.Keys && ChildrenOk(f, children) && cur.parent in f.tree
    ensures PicksTwice(f, children, cur, d)
      <==> d <= GENERATIONS && d < f.tree[cur.parent].number
           && var kids, kin := children[Elder(f, cur, d)], Kin(f, cur.parent, GENERATIONS);
              ComesTwice(kids, kin) || (NoneEligible(kids, kin) && PicksTwice(f, children, cur, d + 1))
  {
    hide WellNumbered, Elder, Kin, IsChild, ComesTwice, NoneEligible;
  }

  /** The first two candidates are the same exactly if a list has them so: those of different generations differ. */
  lemma {:induction false} CandidatesTwiceIff(f: Family, hs: Headers, children: map<Hash, seq<Hash>>, cur: Current, d: nat)
    requires Consistent(f, hs) && ChildrenOk(f, children) && cur.parent in f.tree && cur.hash !in f.tree && d >= 1
    ensures PicksTwice(f, children, cur, d) <==> var c := Candidates(f, children, cur, d); |c| >= 2 && c[0] == c[1]
    decreases GENERATIONS + 1 - d
  {
    hide Kin, Elder, IsUncle, WellNumbered, Candidates, Eligible, PicksTwice, ComesTwice, NoneEligible, IsChild;
    CandidatesStep(f, children, cur, d);
    PicksTwiceStep(f, children, cur, d);
    if d <= GENERATIONS && d < f.tree[cur.parent].number {
      var kids, kin := children[Elder(f, cur, d)], Kin(f, cur.parent, GENERATIONS);
      var here, rest := Eligible(kids, kin), Candidates(f, children, cur, d + 1);
      NoneEligibleIff(kids, kin);
      ComesTwiceIff(kids, kin);
      if here == [] {
        CandidatesTwiceIff(f, hs, children, cur, d + 1);
        assert here + rest == rest;
      } else if |here| == 1 && rest != [] {
        CandidatesAreUncles(f, hs, children, cur, d + 1, rest[0]);
        assert here[0] in here;
        ChildIsUncle(f, hs, cur, d, here[0]);
      }
    }
  }

  /** What is picked passes the checks exactly if no list makes it the same block twice, as none does that has no block twice. */
  lemma PicksPassIff(f: Family, hs: Headers, children: map<Hash, seq<Hash>>, cur: Current)
    requires Consistent(f, hs) && ChildrenOk(f, children) && cur.parent in f.tree && cur.hash !in f.tree
    ensures var us := FirstTwo(Candidates(f, children, cur, 1));
      && (MayCite(f, hs, cur, us) <==> !PicksTwice(f, children, cur, 1))
      && (forall u :: u in us ==> IsUncle(f, hs, cur, u))
      && (ListedOnce(f, children) ==> !PicksTwice(f, children, cur, 1))
  {
    hide Candidates, IsUncle, WellNumbered, Kin, ChildrenOk, ListedOnce, PicksTwice;
    var c := Candidates(f, children, cur, 1);
    CandidatesTwiceIff(f, hs, children, cur, 1);
    forall u | u in FirstTwo(c) ensures IsUncle(f, hs, cur, u) {
      assert u in c;
      CandidatesAreUncles(f, hs, children, cur, 1, u);
    }
    if ListedOnce(f, children) { CandidatesOnce(f, hs, children, cur, 1); }
  }

  /** A block that is picked twice is cited twice, and the new block is refused for the second citation. */
  lemma ListedTwiceIsRefused(f: Family, hs: Headers, children: map<Hash, seq<Hash>>, cur: Current)
    requires Consistent(f, hs) && ChildrenOk(f, children) && cur.parent in f.tree && cur.hash !in f.tree
    requires PicksTwice(f, children, cur, 1)
    ensures var us := FirstTwo(Candidates(f, children, cur, 1));
      |us| == 2 && !MayCite(f, hs, cur, us) && FirstFault(f, hs, cur, Excluded(f, cur, us[..1]), us[1]) == Some(UncleInChain)
  {
    hide Candidates, Kin, IsUncle, ChildrenOk, WellNumbered, PicksTwice;
    CandidatesTwiceIff(f, hs, children, cur, 1);
    PicksPassIff(f, hs, children, cur);
  }

  /** One generation: the children that are no kin, up to the limit. */
  method PickChildren(excluded: set<Hash>, kids: seq<Hash>, before: seq<Hash>) returns (us: seq<Hash>)
    requires |before| < MAX_UNCLES
    ensures us == FirstTwo(before + Eligible(kids, excluded))
  {
    hide Eligible;
    us := before;
    ghost var all := before + Eligible(kids, excluded);
    assert kids[0..] == kids;
    for i := 0 to |kids|
      invariant |us| < MAX_UNCLES && us + Eligible(kids[i..], excluded) == all
    {
      EligibleStep(kids, i, excluded);
      if kids[i] !in excluded {
        us := us + [kids[i]];
        if |us| == MAX_UNCLES {
          assert us + Eligible(kids[i + 1..], excluded) == all;
          return;
        }
      }
    }
    EligibleNone(kids, excluded);
    assert us + [] == us;
  }

  lemma EligibleStep(kids: seq<Hash>, i: nat, excluded: set<Hash>)
    requires i < |kids|
    ensures Eligible(kids[i..], excluded) == (if kids[i] in excluded then [] else [kids[i]]) + Eligible(kids[i + 1..], excluded)
  {
    assert kids[i..][1..] == kids[i + 1..];
  }

  lemma EligibleNone(kids: seq<Hash>, excluded: set<Hash>)
    ensures Eligible(kids[|kids|..], excluded) == []
  {
  }

  /**
    Looks through the children of the parent's ancestors, one generation after the other, for blocks that are
    not kin: the first two candidates are picked, and pass the checks made when the block is enacted exactly
    if the first list with a candidate does not have the same block first and second among its candidates.
   */
  method PickUncles(f: Family, hs: Headers, children: map<Hash, seq<Hash>>, cur: Current) returns (us: seq<Hash>)
    requires Consistent(f, hs) && ChildrenOk(f, children) && cur.parent in f.tree && cur.hash !in f.tree
    ensures us == FirstTwo(Candidates(f, children, cur, 1))
    ensures MayCite(f, hs, cur, us) <==> !PicksTwice(f, children, cur, 1)
    ensures forall u :: u in us ==> IsUncle(f, hs, cur, u)
    ensures IsCurrent(f, cur.parent) ==> forall u :: u in us ==> IsCurrent(f, hs(u).parent)
  {
    hide WellNumbered, Kin, IsUncle, MayCite, Candidates, ChildrenOk, IsCurrent, PicksTwice, ListedOnce;
    us := [];
    CandidatesStep(f, children, cur, 1);
    if f.tree[cur.parent].number != 0 {
      var excluded := AllKin(f, hs, cur.parent);
      us := PickFrom(f, children, cur, excluded);
    }
    PicksPassIff(f, hs, children, cur);
    forall u | IsCurrent(f, cur.parent) && u in us ensures IsCurrent(f, hs(u).parent) {
      UncleParentCurrent(f, hs, cur, u);
    }
  }

  /** The loop over the generations. */
  method PickFrom(f: Family, children: map<Hash, seq<Hash>>, cur: Current, excluded: set<Hash>) returns (us: seq<Hash>)
    requires WellNumbered(f.tree, f.genesis) && f.uncles.Keys == f.tree.Keys && ChildrenOk(f, children)
    requires cur.parent in f.tree && f.tree[cur.parent].number != 0 && excluded == Kin(f, cur.parent, GENERATIONS)
    ensures us == FirstTwo(Candidates(f, children, cur, 1))
  {
    hide WellNumbered, Elder, Kin, IsChild, Eligible, Candidates, ChildrenOk, FirstTwo;
    us := [];
    var top := f.tree[cur.parent].number;
    ghost var all := Candidates(f, children, cur, 1);
    assert us + all == all;
    var p := f.tree[cur.parent].parent;
    ParentIsElder(f, cur);
    var gen := 0;
    while gen < GENERATIONS && p != f.genesis && |us| < MAX_UNCLES
      invariant gen <= GENERATIONS && gen < top && p == Elder(f, cur, gen + 1) && |us| <= MAX_UNCLES
      invariant FirstTwo(us + Candidates(f, children, cur, gen + 1)) == FirstTwo(all)
    {
      ElderStep(f, cur, gen + 1);
      CandidatesStep(f, children, cur, gen + 1);
      HasList(f, children, p);
      ghost var before, here := us, Eligible(children[p], excluded);
      us := PickChildren(excluded, children[p], us);
      TwoOfMore(before, here, Candidates(f, children, cur, gen + 2));
      AtMostTwo(before + here, []);
      p := f.tree[p].parent;
      gen := gen + 1;
    }
    ElderStep(f, cur, gen + 1);
    CandidatesStep(f, children, cur, gen + 1);
    AtMostTwo(us, Candidates(f, children, cur, gen + 1));
    if |us| < MAX_UNCLES { assert us + [] == us; }
  }

  lemma HasList(f: Family, children: map<Hash, seq<Hash>>, p: Hash)
    requires ChildrenOk(f, children) && p in f.tree
    ensures p in children
  {
  }

  lemma AtMostTwo(a: seq<Hash>, b: seq<Hash>)
    ensures |FirstTwo(a)| <= MAX_UNCLES && (|a| <= MAX_UNCLES ==> FirstTwo(a) == a)
    ensures |a| == MAX_UNCLES ==> FirstTwo(a + b) == a
  {
  }

  lemma TwoOfMore(a: seq<Hash>, b: seq<Hash>, c: seq<Hash>)
    ensures FirstTwo(FirstTwo(a + b) + c) == FirstTwo(a + (b + c))
  {
    assert a + (b + c) == a + b + c;
  }

  lemma CandidatesStep(f: Family, children: map<Hash, seq<Hash>>, cur: Current, d: nat)
    requires WellNumbered(f.tree, f.genesis) && f.uncles.Keys == f.tree.Keys && ChildrenOk(f, children) && cur.parent in f.tree
    ensures Candidates(f, children, cur, d)
            == if d > GENERATIONS || d >= f.tree[cur.parent].number then []
               else Eligible(children[Elder(f, cur, d)], Kin(f, cur.parent, GENERATIONS)) + Candidates(f, children, cur, d + 1)
  {
  }

  lemma ParentIsElder(f: Family, cur: Current)
    requires WellNumbered(f.tree, f.genesis) && cur.parent in f.tree && f.tree[cur.parent].number != 0
    ensures f.tree[cur.parent].parent == Elder(f, cur, 1)
  {
    hide Chain, WellNumbered;
    ChainStep(f.tree, f.genesis, cur.parent, f.tree[cur.parent].number);
  }

  lemma UncleParentCurrent(f: Family, hs: Headers, cur: Current, u: Hash)
    requires Consistent(f, hs) && cur.parent in f.tree && IsCurrent(f, cur.parent) && IsUncle(f, hs, cur, u)
    ensures IsCurrent(f, hs(u).parent)
  {
    hide Chain, Kin, WellNumbered;
    ElderStep(f, cur, Depth(f, hs, cur, u));
    ElderStep(f, cur, 0);
  }
}
