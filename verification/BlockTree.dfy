/**
  The tree of known blocks: every block but the genesis block has a known parent, numbered one less.
  A block's chain is its line of ancestors from the genesis block up.
 */
module BlockTree {

  type Hash = nat

  /** The zero hash stands for "no block". */
  const NO_HASH: Hash := 0

  datatype Details = Details(number: nat, totalDifficulty: nat, parent: Hash)

  type Tree = map<Hash, Details>

  predicate WellNumbered(t: Tree, genesis: Hash) {
    && genesis in t && t[genesis].number == 0 && t[genesis].parent == NO_HASH && NO_HASH !in t
    && (forall h :: h in t && h != genesis ==> t[h].parent in t && t[h].number == t[t[h].parent].number + 1)
  }

  /** A tree stays well numbered when a leaf is added, or a block is stored again with the number it had. */
  lemma StoredNumbered(t: Tree, genesis: Hash, h: Hash, d: Details)
    requires WellNumbered(t, genesis) && h != genesis && h != NO_HASH && d.parent in t && d.parent != h
    requires d.number == t[d.parent].number + 1 && (h in t ==> t[h].number == d.number)
    ensures WellNumbered(t[h := d], genesis)
  {
  }

  function Chain(t: Tree, genesis: Hash, h: Hash): (c: seq<Hash>)
    requires WellNumbered(t, genesis) && h in t
    ensures |c| == t[h].number + 1 && c[0] == genesis && c[t[h].number] == h
    ensures forall i :: 0 <= i < |c| ==> c[i] in t
    decreases t[h].number
  {
    if h == genesis then [genesis] else Chain(t, genesis, t[h].parent) + [h]
  }

  /** Each ancestor's own chain is the beginning of the block's chain. */
  lemma {:induction false} ChainPrefix(t: Tree, genesis: Hash, h: Hash, n: nat)
    requires WellNumbered(t, genesis) && h in t && n <= t[h].number
    ensures t[Chain(t, genesis, h)[n]].number == n
    ensures Chain(t, genesis, Chain(t, genesis, h)[n]) == Chain(t, genesis, h)[..n + 1]
    decreases t[h].number
  {
    var c := Chain(t, genesis, h);
    if n == t[h].number {
      assert c[..n + 1] == c;
    } else {
      ChainPrefix(t, genesis, t[h].parent, n);
      assert c[..n + 1] == Chain(t, genesis, t[h].parent)[..n + 1];
    }
  }

  lemma ChainStep(t: Tree, genesis: Hash, h: Hash, n: nat)
    requires WellNumbered(t, genesis) && h in t && 0 < n <= t[h].number
    ensures var c := Chain(t, genesis, h); c[n] != genesis && t[c[n]].parent == c[n - 1]
  {
    var c := Chain(t, genesis, h);
    ChainPrefix(t, genesis, h, n);
    ChainPrefix(t, genesis, h, n - 1);
    assert c[n] != genesis;
    assert Chain(t, genesis, c[n])[n - 1] == c[n - 1];
    assert Chain(t, genesis, c[n])[n - 1] == Chain(t, genesis, t[c[n]].parent)[n - 1];
  }

  /** Where two chains meet they are the same from there down. */
  lemma MeetBelow(t: Tree, genesis: Hash, a: Hash, b: Hash, n: nat)
    requires WellNumbered(t, genesis) && a in t && b in t && n <= t[a].number && n <= t[b].number
    ensures Chain(t, genesis, a)[n] == Chain(t, genesis, b)[n]
            ==> Chain(t, genesis, a)[..n + 1] == Chain(t, genesis, b)[..n + 1]
  {
    hide Chain, WellNumbered;
    ChainPrefix(t, genesis, a, n);
    ChainPrefix(t, genesis, b, n);
  }

  /** h is a or one of its ancestors. */
  predicate IsAncestor(t: Tree, genesis: Hash, h: Hash, a: Hash)
    requires WellNumbered(t, genesis) && a in t
  {
    h in Chain(t, genesis, a)
  }

  /** An ancestor of both, and no later block is an ancestor of both. */
  predicate LowestCommon(t: Tree, genesis: Hash, a: Hash, b: Hash, c: Hash)
    requires WellNumbered(t, genesis) && a in t && b in t
  {
    && IsAncestor(t, genesis, c, a) && IsAncestor(t, genesis, c, b)
    && (forall d :: d in Chain(t, genesis, a) && d in Chain(t, genesis, b) ==> t[d].number <= t[c].number)
  }

  lemma NumberInChain(t: Tree, genesis: Hash, h: Hash, a: Hash)
    requires WellNumbered(t, genesis) && a in t && IsAncestor(t, genesis, h, a)
    ensures h in t && t[h].number <= t[a].number && Chain(t, genesis, a)[t[h].number] == h
  {
    var i :| 0 <= i < |Chain(t, genesis, a)| && Chain(t, genesis, a)[i] == h;
    ChainPrefix(t, genesis, a, i);
  }

  /** Growing the tree by a new leaf changes no existing chain. */
  lemma {:induction false} ChainStable(t: Tree, genesis: Hash, h: Hash, leaf: Hash, d: Details)
    requires WellNumbered(t, genesis) && h in t
    requires leaf !in t || t[leaf] == d
    requires leaf != NO_HASH && d.parent in t && d.number == t[d.parent].number + 1
    ensures WellNumbered(t[leaf := d], genesis) && Chain(t[leaf := d], genesis, h) == Chain(t, genesis, h)
    decreases t[h].number
  {
    if h != genesis {
      ChainStable(t, genesis, t[h].parent, leaf, d);
    }
  }

  function Reverse(s: seq<Hash>): (r: seq<Hash>)
    ensures |r| == |s|
  {
    if s == [] then [] else Reverse(s[1..]) + [s[0]]
  }

  lemma {:induction false} ReverseConcat(a: seq<Hash>, b: seq<Hash>)
    ensures Reverse(a + b) == Reverse(b) + Reverse(a)
  {
    if a == [] {
      assert a + b == b;
      assert Reverse(b) + [] == Reverse(b);
    } else {
      assert (a + b)[1..] == a[1..] + b;
      ReverseConcat(a[1..], b);
    }
  }

  lemma ReverseOne(x: Hash)
    ensures Reverse([x]) == [x]
  {
    assert Reverse([x][1..]) == [];
  }

  lemma {:induction false} ReverseTwice(s: seq<Hash>)
    ensures Reverse(Reverse(s)) == s
  {
    if s != [] {
      ReverseTwice(s[1..]);
      ReverseConcat(Reverse(s[1..]), [s[0]]);
      ReverseOne(s[0]);
    }
  }

  lemma {:induction false} ReverseMembers(s: seq<Hash>)
    ensures forall x :: x in Reverse(s) <==> x in s
  {
    if s != [] { ReverseMembers(s[1..]); }
  }

  predicate Distinct(s: seq<Hash>) {
    forall i, j :: 0 <= i < j < |s| ==> s[i] != s[j]
  }

  lemma DistinctAppend(a: seq<Hash>, b: seq<Hash>)
    requires Distinct(a) && Distinct(b) && forall x :: x in b ==> x !in a
    ensures Distinct(a + b)
  {
    forall i, j | 0 <= i < j < |a + b| ensures (a + b)[i] != (a + b)[j] {
      if i < |a| <= j { assert (a + b)[j] == b[j - |a|] && b[j - |a|] in b; }
    }
  }

  lemma {:induction false} ReverseDistinct(s: seq<Hash>)
    requires Distinct(s)
    ensures Distinct(Reverse(s))
  {
    if s != [] {
      ReverseDistinct(s[1..]);
      ReverseMembers(s[1..]);
      DistinctAppend(Reverse(s[1..]), [s[0]]);
    }
  }

  lemma ChainDistinct(t: Tree, genesis: Hash, h: Hash)
    requires WellNumbered(t, genesis) && h in t
    ensures Distinct(Chain(t, genesis, h))
  {
    hide Chain, WellNumbered;
    var c := Chain(t, genesis, h);
    forall i, j | 0 <= i < j < |c| ensures c[i] != c[j] {
      ChainPrefix(t, genesis, h, i);
      ChainPrefix(t, genesis, h, j);
    }
  }

  lemma NotAbove(t: Tree, genesis: Hash, h: Hash, g: Hash)
    requires WellNumbered(t, genesis) && h in t && g in t && t[g].number <= t[h].number
    ensures g !in Chain(t, genesis, h)[t[g].number + 1..]
  {
    hide Chain, WellNumbered;
    var c := Chain(t, genesis, h);
    forall i | t[g].number < i < |c| ensures c[i] != g { ChainPrefix(t, genesis, h, i); }
  }

  // ---------- the route between two blocks ----------

  /** How many blocks from the genesis block on two chains share. */
  function SharedLength(a: seq<Hash>, b: seq<Hash>): (k: nat)
    ensures k <= |a| && k <= |b| && a[..k] == b[..k]
    ensures k < |a| && k < |b| ==> a[k] != b[k]
  {
    if a != [] && b != [] && a[0] == b[0] then
      var k := SharedLength(a[1..], b[1..]);
      assert a[..k + 1] == [a[0]] + a[1..][..k] && b[..k + 1] == [b[0]] + b[1..][..k];
      k + 1
    else 0
  }

  lemma {:induction false} SharedBelow(a: seq<Hash>, b: seq<Hash>, n: nat)
    requires n < |a| && n < |b| && a[..n + 1] == b[..n + 1]
    ensures n < SharedLength(a, b)
  {
    assert a[0] == a[..n + 1][0] == b[..n + 1][0] == b[0];
    if n > 0 {
      assert a[1..][..n] == a[..n + 1][1..] && b[1..][..n] == b[..n + 1][1..];
      SharedBelow(a[1..], b[1..], n - 1);
    }
  }

  /** A chain whose top the other one lacks is not shared as a whole. */
  lemma {:induction false} TopNotShared(a: seq<Hash>, b: seq<Hash>)
    requires b != [] && b[|b| - 1] !in a
    ensures SharedLength(a, b) < |b|
  {
    if a != [] && a[0] == b[0] { TopNotShared(a[1..], b[1..]); }
  }

  datatype Route = Route(blocks: seq<Hash>, common: Hash, index: nat)

  /** The blocks of `from`'s chain above the meeting point, topmost first. */
  function DownPath(t: Tree, genesis: Hash, from: Hash, to: Hash): seq<Hash>
    requires WellNumbered(t, genesis) && from in t && to in t
  {
    var a, b := Chain(t, genesis, from), Chain(t, genesis, to);
    Reverse(a[SharedLength(a, b)..])
  }

  /** The blocks of `to`'s chain above the meeting point, lowest first. */
  function UpPath(t: Tree, genesis: Hash, from: Hash, to: Hash): seq<Hash>
    requires WellNumbered(t, genesis) && from in t && to in t
  {
    var a, b := Chain(t, genesis, from), Chain(t, genesis, to);
    b[SharedLength(a, b)..]
  }

  lemma SharedPositive(t: Tree, genesis: Hash, from: Hash, to: Hash)
    requires WellNumbered(t, genesis) && from in t && to in t
    ensures SharedLength(Chain(t, genesis, from), Chain(t, genesis, to)) > 0
  {
    assert Chain(t, genesis, from)[0] == genesis && Chain(t, genesis, to)[0] == genesis;
  }

  function Meeting(t: Tree, genesis: Hash, from: Hash, to: Hash): Hash
    requires WellNumbered(t, genesis) && from in t && to in t
  {
    var a, b := Chain(t, genesis, from), Chain(t, genesis, to);
    SharedPositive(t, genesis, from, to);
    a[SharedLength(a, b) - 1]
  }

  lemma CommonIsShared(t: Tree, genesis: Hash, from: Hash, to: Hash, d: Hash)
    requires WellNumbered(t, genesis) && from in t && to in t
    requires d in Chain(t, genesis, from) && d in Chain(t, genesis, to)
    ensures d in t && t[d].number < SharedLength(Chain(t, genesis, from), Chain(t, genesis, to))
  {
    hide Chain, WellNumbered, SharedLength;
    NumberInChain(t, genesis, d, from);
    NumberInChain(t, genesis, d, to);
    MeetBelow(t, genesis, from, to, t[d].number);
    SharedBelow(Chain(t, genesis, from), Chain(t, genesis, to), t[d].number);
  }

  lemma MeetingPlace(t: Tree, genesis: Hash, from: Hash, to: Hash)
    requires WellNumbered(t, genesis) && from in t && to in t
    ensures var a, b, c := Chain(t, genesis, from), Chain(t, genesis, to), Meeting(t, genesis, from, to);
      c in a && c in b && c in t && t[c].number + 1 == SharedLength(a, b)
  {
    hide Chain, WellNumbered, SharedLength;
    var a, b := Chain(t, genesis, from), Chain(t, genesis, to);
    var k := SharedLength(a, b);
    SharedPositive(t, genesis, from, to);
    ChainPrefix(t, genesis, from, k - 1);
    assert a[k - 1] == a[..k][k - 1] == b[..k][k - 1] == b[k - 1];
  }

  /** The meeting point of two chains is the lowest common ancestor. */
  lemma MeetingIsLowest(t: Tree, genesis: Hash, from: Hash, to: Hash)
    requires WellNumbered(t, genesis) && from in t && to in t
    ensures LowestCommon(t, genesis, from, to, Meeting(t, genesis, from, to))
    ensures t[Meeting(t, genesis, from, to)].number + 1
            == SharedLength(Chain(t, genesis, from), Chain(t, genesis, to))
  {
    hide Chain, WellNumbered, SharedLength, Meeting;
    MeetingPlace(t, genesis, from, to);
    forall d | d in Chain(t, genesis, from) && d in Chain(t, genesis, to)
      ensures t[d].number <= t[Meeting(t, genesis, from, to)].number
    {
      CommonIsShared(t, genesis, from, to, d);
    }
  }

  /** A block above the meeting point is on one of the two chains only. */
  lemma AboveMeetingApart(t: Tree, genesis: Hash, from: Hash, to: Hash, g: Hash)
    requires WellNumbered(t, genesis) && from in t && to in t
    requires g in Chain(t, genesis, from)[SharedLength(Chain(t, genesis, from), Chain(t, genesis, to))..]
    ensures g !in Chain(t, genesis, to)
  {
    hide WellNumbered, Chain, SharedLength, Meeting;
    var a, b := Chain(t, genesis, from), Chain(t, genesis, to);
    var k := SharedLength(a, b);
    var i :| 0 <= i < |a[k..]| && a[k..][i] == g;
    assert a[k + i] == g;
    ChainPrefix(t, genesis, from, k + i);
    MeetingIsLowest(t, genesis, from, to);
  }

  /** What treeRoute returns for known blocks, for every choice of its flags. */
  function RouteSpec(t: Tree, genesis: Hash, from: Hash, to: Hash, common: bool, pre: bool, post: bool): Route
    requires WellNumbered(t, genesis) && from in t && to in t
  {
    RouteOf(DownPath(t, genesis, from, to), Meeting(t, genesis, from, to), UpPath(t, genesis, from, to), common, pre, post)
  }

  function RouteOf(down: seq<Hash>, c: Hash, up: seq<Hash>, common: bool, pre: bool, post: bool): Route {
    Route(When(pre, down) + When(common && (pre || post), [c]) + When(post, up), c,
          (if pre then |down| else 0) + (if common && pre && (!post || up == []) then 1 else 0))
  }

  function When(keep: bool, s: seq<Hash>): seq<Hash> {
    if keep then s else []
  }

  /** Follows parents down to number n, collecting the blocks passed, topmost first, if `keep` is set. */
  method Descend(t: Tree, genesis: Hash, start: Hash, n: nat, keep: bool) returns (at: Hash, passed: seq<Hash>)
    requires WellNumbered(t, genesis) && start in t && n <= t[start].number
    ensures at == Chain(t, genesis, start)[n]
    ensures passed == When(keep, Reverse(Chain(t, genesis, start)[n + 1..]))
  {
    hide Reverse, Chain, WellNumbered;
    ghost var c := Chain(t, genesis, start);
    ReverseNone(c);
    var m: nat := t[start].number;
    at, passed := start, [];
    while m > n
      invariant n <= m < |c| && at == c[m]
      invariant passed == When(keep, Reverse(c[m + 1..]))
    {
      ChainStep(t, genesis, start, m);
      ReversePush(c, m);
      if keep { passed := passed + [at]; }
      at := t[at].parent;
      m := m - 1;
    }
  }

  /** Follows the parents of two blocks with the same number until they meet. */
  method DescendTogether(t: Tree, genesis: Hash, source: Hash, target: Hash, from0: Hash, to0: Hash, n: nat,
                         pre: bool, post: bool, ret0: seq<Hash>, back0: seq<Hash>)
    returns (from: Hash, ret: seq<Hash>, back: seq<Hash>)
    requires WellNumbered(t, genesis) && source in t && target in t && n <= t[source].number && n <= t[target].number
    requires n == t[source].number || n == t[target].number
    requires from0 == Chain(t, genesis, source)[n] && to0 == Chain(t, genesis, target)[n]
    requires ret0 == When(pre, Reverse(Chain(t, genesis, source)[n + 1..]))
    requires back0 == When(post, Reverse(Chain(t, genesis, target)[n + 1..]))
    ensures from == Meeting(t, genesis, source, target)
    ensures ret == When(pre, DownPath(t, genesis, source, target))
    ensures back == When(post, Reverse(UpPath(t, genesis, source, target)))
  {
    hide Reverse, Chain, WellNumbered, SharedLength;
    ghost var a, b := Chain(t, genesis, source), Chain(t, genesis, target);
    var m: nat := n;
    var to := to0;
    from, ret, back := from0, ret0, back0;
    while from != to
      invariant m < |a| && m < |b| && from == a[m] && to == b[m]
      invariant ret == When(pre, Reverse(a[m + 1..])) && back == When(post, Reverse(b[m + 1..]))
      invariant m + 1 < |a| && m + 1 < |b| ==> a[m + 1] != b[m + 1]
      decreases m
    {
      assert m > 0;
      ChainStep(t, genesis, source, m);
      ChainStep(t, genesis, target, m);
      ReversePush(a, m);
      ReversePush(b, m);
      if pre { ret := ret + [from]; }
      if post { back := back + [to]; }
      from, to := t[from].parent, t[to].parent;
      m := m - 1;
    }
    MeetBelow(t, genesis, source, target, m);
    SharedIs(a, b, m + 1);
  }

  method TreeRoute(t: Tree, genesis: Hash, source: Hash, target: Hash, common: bool, pre: bool, post: bool) returns (r: Route)
    requires WellNumbered(t, genesis)
    requires source != NO_HASH && target != NO_HASH ==> source in t && target in t
    ensures source == NO_HASH || target == NO_HASH ==> r == Route([], NO_HASH, 0)
    ensures source != NO_HASH && target != NO_HASH ==> r == RouteSpec(t, genesis, source, target, common, pre, post)
  {
    if source == NO_HASH || target == NO_HASH {
      return Route([], NO_HASH, 0);
    }
    hide Reverse, Chain, WellNumbered, SharedLength, DownPath, UpPath, Meeting, When, RouteOf;
    var fn, tn := t[source].number, t[target].number;
    var n := if fn > tn then tn else fn;
    var from, ret := Descend(t, genesis, source, n, pre);
    var to, back := Descend(t, genesis, target, n, post);
    from, ret, back := DescendTogether(t, genesis, source, target, from, to, n, pre, post, ret, back);
    RouteParts(common, pre, post, DownPath(t, genesis, source, target), from, UpPath(t, genesis, source, target));
    ret := ret + When(pre && common, [from]);
    back := back + When(post && !pre && common, [from]);
    r := Route(ret + Reverse(back), from, |ret| - if common && ret != [] && back != [] then 1 else 0);
  }

  lemma ReverseNone(a: seq<Hash>)
    ensures a[|a|..] == [] && Reverse(a[|a|..]) == []
  {
  }

  /** What the loops have collected, put together, is the route. */
  lemma RouteParts(common: bool, pre: bool, post: bool, down: seq<Hash>, c: Hash, up: seq<Hash>)
    ensures var ret, back := When(pre, down) + When(pre && common, [c]), When(post, Reverse(up)) + When(post && !pre && common, [c]);
      && (if common && ret != [] && back != [] then 1 else 0) <= |ret|
      && Route(ret + Reverse(back), c, |ret| - if common && ret != [] && back != [] then 1 else 0)
         == RouteOf(down, c, up, common, pre, post)
  {
    ReverseTwice(up);
    ReverseConcat(Reverse(up), When(post && !pre && common, [c]));
    ReverseOne(c);
    assert Reverse([]) == [];
    hide Reverse;
    if post {
      if common && !pre {
        assert Reverse(Reverse(up) + [c]) == [c] + up;
      } else {
        assert Reverse(up) + [] == Reverse(up);
      }
    }
  }

  lemma ReversePush(a: seq<Hash>, n: nat)
    requires n < |a|
    ensures Reverse(a[n..]) == Reverse(a[n + 1..]) + [a[n]]
  {
    assert a[n..][1..] == a[n + 1..];
  }

  lemma {:induction false} SharedIs(a: seq<Hash>, b: seq<Hash>, k: nat)
    requires k <= |a| && k <= |b| && a[..k] == b[..k]
    requires k < |a| && k < |b| ==> a[k] != b[k]
    ensures SharedLength(a, b) == k
  {
    if k > 0 {
      assert a[0] == a[..k][0] == b[..k][0] == b[0];
      assert a[1..][..k - 1] == a[..k][1..] && b[1..][..k - 1] == b[..k][1..];
      SharedIs(a[1..], b[1..], k - 1);
    }
  }

  /** A route has each of its blocks once. */
  lemma RouteDistinct(t: Tree, genesis: Hash, from: Hash, to: Hash, common: bool, pre: bool, post: bool)
    requires WellNumbered(t, genesis) && from in t && to in t
    ensures Distinct(RouteSpec(t, genesis, from, to, common, pre, post).blocks)
  {
    hide Reverse, Chain, WellNumbered, SharedLength;
    var a, b := Chain(t, genesis, from), Chain(t, genesis, to);
    var k, c := SharedLength(a, b), Meeting(t, genesis, from, to);
    MeetingIsLowest(t, genesis, from, to);
    SharedPositive(t, genesis, from, to);
    ChainDistinct(t, genesis, from);
    ChainDistinct(t, genesis, to);
    NotAbove(t, genesis, from, c);
    NotAbove(t, genesis, to, c);
    ReverseMembers(a[k..]);
    ReverseDistinct(a[k..]);
    forall g | g in b[k..] ensures g !in a[k..] {
      if g in a[k..] { AboveMeetingApart(t, genesis, from, to, g); }
    }
    ThreeParts(When(pre, Reverse(a[k..])), When(common && (pre || post), [c]), When(post, b[k..]));
  }

  lemma ThreeParts(a: seq<Hash>, b: seq<Hash>, c: seq<Hash>)
    requires Distinct(a) && Distinct(b) && Distinct(c)
    requires forall x :: x in c ==> x !in a && x !in b
    requires forall x :: x in b ==> x !in a
    ensures Distinct(a + b + c)
  {
    DistinctAppend(a, b);
    DistinctAppend(a + b, c);
  }

  /**
    The index is the place of the common ancestor in the route, or where it would be inserted, except in one
    case: if the ancestor is included and the route ends with it, the index is one too far.
   */
  lemma IndexLocatesAncestor(t: Tree, genesis: Hash, from: Hash, to: Hash, common: bool, pre: bool, post: bool)
    requires WellNumbered(t, genesis) && from in t && to in t
    ensures var r := RouteSpec(t, genesis, from, to, common, pre, post);
      && (!common ==> r.index == if pre then |DownPath(t, genesis, from, to)| else 0)
      && (common && (pre || post) ==>
            (r.index < |r.blocks| && r.blocks[r.index] == r.common <==> post && (!pre || to != r.common)))
  {
    var a, b := Chain(t, genesis, from), Chain(t, genesis, to);
    var k, c := SharedLength(a, b), Meeting(t, genesis, from, to);
    SharedPositive(t, genesis, from, to);
    assert b[..k][k - 1] == c;
    MeetingIsLowest(t, genesis, from, to);
    assert UpPath(t, genesis, from, to) == [] <==> to == c;
  }

  /** The header's example treeRoute(2a, 1a, true) == ({2a, 1a}, 1a, 1) does not hold: the index is 2. */
  lemma IndexExample()
    ensures var t: Tree := map[1 := Details(0, 0, NO_HASH), 2 := Details(1, 0, 1), 3 := Details(2, 0, 2)];
      WellNumbered(t, 1) && RouteSpec(t, 1, 3, 2, true, true, true) == Route([3, 2], 2, 2)
  {
    var t: Tree := map[1 := Details(0, 0, NO_HASH), 2 := Details(1, 0, 1), 3 := Details(2, 0, 2)];
    assert WellNumbered(t, 1);
    assert Chain(t, 1, 1) == [1];
    assert Chain(t, 1, 2) == [1, 2];
    assert Chain(t, 1, 3) == [1, 2, 3];
    SharedIs([1, 2, 3], [1, 2], 2);
    assert [1, 2, 3][2..] == [3];
    ReverseOne(3);
  }
}
