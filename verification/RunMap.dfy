/**
  Run-compressed maps: an ordered map from a start number to the items at consecutive numbers from there on.
  The operations on them refine the operations on a plain map from numbers to items.
 */
module RunMap {
  import opened Options

  datatype Run<T> = Run(start: nat, items: seq<T>)

  type Runs<T> = seq<Run<T>>

  function End<T>(r: Run<T>): nat {
    r.start + |r.items|
  }

  /** Runs are not empty, in order, and neither overlap nor touch. */
  predicate WellFormed<T>(m: Runs<T>) {
    && (forall i :: 0 <= i < |m| ==> m[i].items != [])
    && (forall i, j :: 0 <= i < j < |m| ==> End(m[i]) < m[j].start)
  }

  function Items<T>(start: nat, items: seq<T>): map<nat, T>
    decreases |items|
  {
    if items == [] then map[] else Items(start + 1, items[1..])[start := items[0]]
  }

  /** The plain map that the runs stand for. */
  function Contents<T>(m: Runs<T>): map<nat, T> {
    if m == [] then map[] else Items(m[0].start, m[0].items) + Contents(m[1..])
  }

  predicate InRun<T>(r: Run<T>, n: nat) {
    r.start <= n < End(r)
  }

  /** What the runs hold at n. */
  function At<T>(m: Runs<T>, n: nat): Option<T> {
    if m == [] then None else if InRun(m[0], n) then Some(m[0].items[n - m[0].start]) else At(m[1..], n)
  }

  /** The first run that starts at n or later. */
  function LowerBound<T>(m: Runs<T>, n: nat): (k: nat)
    ensures k <= |m|
    ensures k < |m| ==> m[k].start >= n
    ensures forall i :: 0 <= i < k ==> m[i].start < n
  {
    if m == [] || m[0].start >= n then 0 else LowerBound(m[1..], n) + 1
  }

  // ---------- contents ----------

  lemma {:induction false} ItemsAt<T>(start: nat, items: seq<T>, n: nat)
    ensures n in Items(start, items) <==> start <= n < start + |items|
    ensures n in Items(start, items) ==> Items(start, items)[n] == items[n - start]
    decreases |items|
  {
    if items != [] { ItemsAt(start + 1, items[1..], n); }
  }

  /** Well-formed runs: the plain map at n is what the run around n holds. */
  lemma {:induction false} ContentsAt<T>(m: Runs<T>, n: nat)
    requires WellFormed(m)
    ensures n in Contents(m) <==> At(m, n).Some?
    ensures n in Contents(m) ==> Contents(m)[n] == At(m, n).value && m[0].start <= n < End(m[|m| - 1])
  {
    if m != [] {
      ItemsAt(m[0].start, m[0].items, n);
      ContentsAt(m[1..], n);
    }
  }

  /** Runs that all end at or before n, or all start after it, hold nothing there. */
  lemma {:induction false} AtOutside<T>(m: Runs<T>, n: nat)
    requires forall i :: 0 <= i < |m| ==> !InRun(m[i], n)
    ensures At(m, n) == None
  {
    if m != [] { AtOutside(m[1..], n); }
  }

  lemma {:induction false} AtRun<T>(m: Runs<T>, i: nat, n: nat)
    requires WellFormed(m) && i < |m| && InRun(m[i], n)
    ensures At(m, n) == Some(m[i].items[n - m[i].start])
  {
    if i > 0 { AtRun(m[1..], i - 1, n); }
  }

  /** The run that holds n, if any, is the one at the lower bound or the one before. */
  lemma Located<T>(m: Runs<T>, n: nat)
    requires WellFormed(m)
    ensures var k := LowerBound(m, n);
      At(m, n) == if k < |m| && m[k].start == n then Some(m[k].items[0])
                  else if k > 0 && n < End(m[k - 1]) then Some(m[k - 1].items[n - m[k - 1].start])
                  else None
  {
    hide At, WellFormed;
    var k := LowerBound(m, n);
    if k < |m| && m[k].start == n {
      Neighbours(m, k);
      AtRun(m, k, n);
    } else if k > 0 && n < End(m[k - 1]) {
      AtRun(m, k - 1, n);
    } else {
      forall i | 0 <= i < |m| ensures !InRun(m[i], n) {
        if i < k { BeforeAll(m, i, k - 1); } else { BeforeAll(m, k, i); }
      }
      AtOutside(m, n);
    }
  }

  // ---------- lookups ----------

  function HaveItem<T>(m: Runs<T>, n: nat): (b: bool)
    requires WellFormed(m)
    ensures b <==> n in Contents(m)
  {
    Located(m, n);
    ContentsAt(m, n);
    var k := LowerBound(m, n);
    if k < |m| && m[k].start == n then true
    else k > 0 && m[k - 1].start <= n < End(m[k - 1])
  }

  function FindItem<T>(m: Runs<T>, n: nat): (r: Option<T>)
    requires WellFormed(m)
    ensures r == if n in Contents(m) then Some(Contents(m)[n]) else None
  {
    Located(m, n);
    ContentsAt(m, n);
    var k := LowerBound(m, n);
    if k < |m| && m[k].start == n then Some(m[k].items[0])
    else if k > 0 && m[k - 1].start <= n < End(m[k - 1]) then Some(m[k - 1].items[n - m[k - 1].start])
    else None
  }

  // ---------- editing one run ----------

  lemma Neighbours<T>(m: Runs<T>, k: nat)
    requires WellFormed(m) && k < |m|
    ensures m[k].items != []
    ensures (k > 0 ==> End(m[k - 1]) < m[k].start) && (k + 1 < |m| ==> End(m[k]) < m[k + 1].start)
  {
  }

  lemma InsertedWell<T>(m: Runs<T>, k: nat, r: Run<T>)
    requires WellFormed(m) && k <= |m| && r.items != []
    requires (k > 0 ==> End(m[k - 1]) < r.start) && (k < |m| ==> End(r) < m[k].start)
    ensures WellFormed(m[..k] + [r] + m[k..])
  {
    var m' := m[..k] + [r] + m[k..];
    forall i | 0 <= i < |m'| ensures m'[i].items != [] {
      assert i != k ==> m'[i] == m[if i < k then i else i - 1];
    }
    forall i, j | 0 <= i < j < |m'| ensures End(m'[i]) < m'[j].start { InsertedApart(m, k, r, i, j); }
  }

  lemma InsertedApart<T>(m: Runs<T>, k: nat, r: Run<T>, i: nat, j: nat)
    requires WellFormed(m) && k <= |m| && i < j <= |m|
    requires (k > 0 ==> End(m[k - 1]) < r.start) && (k < |m| ==> End(r) < m[k].start)
    ensures var m' := m[..k] + [r] + m[k..]; End(m'[i]) < m'[j].start
  {
    if j == k {
      BeforeAll(m, i, k - 1);
    } else if i == k {
      BeforeAll(m, k, j - 1);
    }
  }

  lemma BeforeAll<T>(m: Runs<T>, i: nat, j: nat)
    requires WellFormed(m) && i <= j < |m|
    ensures End(m[i]) <= End(m[j]) && m[i].start <= m[j].start
  {
  }

  function Replaced<T>(m: Runs<T>, k: nat, r: Run<T>): (m': Runs<T>)
    requires WellFormed(m) && k < |m| && r.items != []
    requires (k > 0 ==> End(m[k - 1]) < r.start) && (k + 1 < |m| ==> End(r) < m[k + 1].start)
    ensures WellFormed(m')
  {
    m[k := r]
  }

  function Inserted<T>(m: Runs<T>, k: nat, r: Run<T>): (m': Runs<T>)
    requires WellFormed(m) && k <= |m| && r.items != []
    requires (k > 0 ==> End(m[k - 1]) < r.start) && (k < |m| ==> End(r) < m[k].start)
    ensures WellFormed(m')
  {
    InsertedWell(m, k, r);
    m[..k] + [r] + m[k..]
  }

  function Dropped<T>(m: Runs<T>, k: nat): (m': Runs<T>)
    requires WellFormed(m) && k < |m|
    ensures WellFormed(m')
  {
    m[..k] + m[k + 1..]
  }

  lemma AtReplaced<T>(m: Runs<T>, k: nat, r: Run<T>, i: nat)
    requires WellFormed(m) && k < |m| && r.items != []
    requires (k > 0 ==> End(m[k - 1]) < r.start) && (k + 1 < |m| ==> End(r) < m[k + 1].start)
    ensures At(Replaced(m, k, r), i)
            == if InRun(r, i) then Some(r.items[i - r.start]) else if InRun(m[k], i) then None else At(m, i)
  {
    hide At;
    var m' := Replaced(m, k, r);
    if InRun(r, i) {
      AtRun(m', k, i);
    } else if j :| 0 <= j < |m| && InRun(m[j], i) && j != k {
      AtRun(m, j, i);
      AtRun(m', j, i);
    } else {
      AtOutside(m', i);
      if !InRun(m[k], i) { AtOutside(m, i); }
    }
  }

  lemma AtInserted<T>(m: Runs<T>, k: nat, r: Run<T>, i: nat)
    requires WellFormed(m) && k <= |m| && r.items != []
    requires (k > 0 ==> End(m[k - 1]) < r.start) && (k < |m| ==> End(r) < m[k].start)
    ensures At(Inserted(m, k, r), i) == if InRun(r, i) then Some(r.items[i - r.start]) else At(m, i)
  {
    hide At, WellFormed;
    var m' := Inserted(m, k, r);
    if InRun(r, i) {
      AtRun(m', k, i);
    } else if j :| 0 <= j < |m| && InRun(m[j], i) {
      AtRun(m, j, i);
      AtRun(m', if j < k then j else j + 1, i);
    } else {
      AtOutside(m, i);
      AtOutside(m', i);
    }
  }

  lemma AtDropped<T>(m: Runs<T>, k: nat, i: nat)
    requires WellFormed(m) && k < |m|
    ensures At(Dropped(m, k), i) == if InRun(m[k], i) then None else At(m, i)
  {
    hide At;
    var r := Dropped(m, k);
    if InRun(m[k], i) {
      AtOutside(r, i);
    } else if j :| 0 <= j < |m| && InRun(m[j], i) {
      AtRun(m, j, i);
      AtRun(r, if j < k then j else j - 1, i);
    } else {
      AtOutside(m, i);
      AtOutside(r, i);
    }
  }

  // ---------- removal ----------

  /** Every number from n to k is held. */
  predicate Contiguous<T>(m: map<nat, T>, n: nat, k: nat) {
    n <= k && forall j :: n <= j <= k ==> j in m
  }

  /** The map without n and the rest of its contiguous run. */
  function WithoutRunFrom<T>(m: map<nat, T>, n: nat): map<nat, T> {
    map k | k in m && !Contiguous(m, n, k) :: m[k]
  }

  function Below<T>(m: map<nat, T>, n: nat): map<nat, T> {
    map k | k in m && k < n :: m[k]
  }

  /** A run cut off at n, inside it. */
  function Cut<T>(r: Run<T>, n: nat): (c: Run<T>)
    requires r.start < n < End(r)
    ensures c.start == r.start && c.items != [] && End(c) == n
  {
    Run(r.start, r.items[..n - r.start])
  }

  function RemoveItem<T>(m: Runs<T>, n: nat): (r: Runs<T>)
    requires WellFormed(m)
    ensures WellFormed(r)
  {
    var k := LowerBound(m, n);
    if k < |m| && m[k].start == n then Dropped(m, k)
    else if k > 0 && n < End(m[k - 1]) then Replaced(m, k - 1, Cut(m[k - 1], n))
    else m
  }

  function RemoveAllStartingWith<T>(m: Runs<T>, n: nat): (r: Runs<T>)
    requires WellFormed(m)
    ensures WellFormed(r)
  {
    var k := LowerBound(m, n);
    if k < |m| && m[k].start == n then m[..k]
    else if k == 0 then []
    else if n < End(m[k - 1]) then m[..k - 1] + [Cut(m[k - 1], n)]
    else m[..k]
  }

  lemma RemoveAllAt<T>(m: Runs<T>, n: nat, i: nat)
    requires WellFormed(m)
    ensures At(RemoveAllStartingWith(m, n), i) == if i < n then At(m, i) else None
  {
    hide At, WellFormed;
    var k, r := LowerBound(m, n), RemoveAllStartingWith(m, n);
    if i >= n {
      NothingFrom(m, n, i);
    } else if j :| 0 <= j < |m| && InRun(m[j], i) {
      AtRun(m, j, i);
      if j >= k { BeforeAll(m, k, j); }
      assert j < k;
      AtRun(r, j, i);
    } else {
      AtOutside(m, i);
      AtOutside(r, i);
    }
  }

  lemma NothingFrom<T>(m: Runs<T>, n: nat, i: nat)
    requires WellFormed(m) && i >= n
    ensures At(RemoveAllStartingWith(m, n), i) == None
  {
    hide At;
    var k, r := LowerBound(m, n), RemoveAllStartingWith(m, n);
    forall j | 0 <= j < |r| ensures !InRun(r[j], i) {
      if j < k - 1 {
        Neighbours(m, j);
        BeforeAll(m, j + 1, k - 1);
      }
    }
    AtOutside(r, i);
  }

  lemma RemoveAllIsBelow<T>(m: Runs<T>, n: nat)
    requires WellFormed(m)
    ensures Contents(RemoveAllStartingWith(m, n)) == Below(Contents(m), n)
  {
    hide RemoveAllStartingWith, Contents, At, WellFormed;
    forall i ensures var a, b := Contents(RemoveAllStartingWith(m, n)), Below(Contents(m), n);
        (i in a <==> i in b) && (i in a ==> a[i] == b[i]) {
      RemoveAllAt(m, n, i);
      ContentsAt(m, i);
      ContentsAt(RemoveAllStartingWith(m, n), i);
    }
  }

  /** The run that n is in reaches to its end, and no further. */
  lemma ContiguousIs<T>(m: Runs<T>, j: nat, n: nat, i: nat)
    requires WellFormed(m) && j < |m| && InRun(m[j], n)
    ensures Contiguous(Contents(m), n, i) <==> n <= i < End(m[j])
  {
    hide Contents, At;
    if n <= i < End(m[j]) {
      forall x | n <= x <= i ensures x in Contents(m) { AtRun(m, j, x); ContentsAt(m, x); }
    } else if n <= i {
      AtOutside(m, End(m[j]));
      ContentsAt(m, End(m[j]));
    }
  }

  lemma RemoveItemAt<T>(m: Runs<T>, n: nat, i: nat)
    requires WellFormed(m)
    ensures At(RemoveItem(m, n), i) == if Contiguous(Contents(m), n, i) then None else At(m, i)
  {
    hide Contents, Dropped, Replaced, At, Contiguous, WellFormed;
    var k := LowerBound(m, n);
    if k < |m| { Neighbours(m, k); }
    if k > 0 { Neighbours(m, k - 1); }
    if k < |m| && m[k].start == n {
      ContiguousIs(m, k, n, i);
      AtDropped(m, k, i);
    } else if k > 0 && n < End(m[k - 1]) {
      ContiguousIs(m, k - 1, n, i);
      TailCutAt(m, k - 1, n, i);
    } else {
      Located(m, n);
      ContentsAt(m, n);
      NotContiguous(Contents(m), n, i);
    }
  }

  lemma NotContiguous<T>(m: map<nat, T>, n: nat, i: nat)
    requires n !in m
    ensures !Contiguous(m, n, i)
  {
  }

  lemma TailCutAt<T>(m: Runs<T>, k: nat, n: nat, i: nat)
    requires WellFormed(m) && k < |m| && m[k].start < n < End(m[k])
    requires k + 1 < |m| ==> n < m[k + 1].start
    requires k > 0 ==> End(m[k - 1]) < m[k].start
    ensures At(Replaced(m, k, Cut(m[k], n)), i) == if n <= i < End(m[k]) then None else At(m, i)
  {
    hide At, Replaced, WellFormed;
    if InRun(m[k], i) { AtRun(m, k, i); }
    AtReplaced(m, k, Cut(m[k], n), i);
  }

  lemma RemoveItemIs<T>(m: Runs<T>, n: nat)
    requires WellFormed(m)
    ensures Contents(RemoveItem(m, n)) == WithoutRunFrom(Contents(m), n)
  {
    hide RemoveItem, Contents, At, WellFormed, Contiguous;
    forall i ensures var a, b := Contents(RemoveItem(m, n)), WithoutRunFrom(Contents(m), n);
        (i in a <==> i in b) && (i in a ==> a[i] == b[i]) {
      RemoveItemAt(m, n, i);
      ContentsAt(m, i);
      ContentsAt(RemoveItem(m, n), i);
    }
  }

  // ---------- taking from the front ----------

  function From<T>(m: map<nat, T>, n: nat): map<nat, T> {
    map k | k in m && k >= n :: m[k]
  }

  /** The first run without its first i items. */
  function DropPrefix<T>(m: Runs<T>, i: nat): (r: Runs<T>)
    requires WellFormed(m) && m != [] && i <= |m[0].items|
    ensures WellFormed(r)
  {
    if i < |m[0].items| then Replaced(m, 0, Run(m[0].start + i, m[0].items[i..])) else Dropped(m, 0)
  }

  lemma DropPrefixAt<T>(m: Runs<T>, i: nat, j: nat)
    requires WellFormed(m) && m != [] && i <= |m[0].items|
    ensures At(DropPrefix(m, i), j) == if j >= m[0].start + i then At(m, j) else None
  {
    hide At;
    if InRun(m[0], j) { AtRun(m, 0, j); }
    if j < m[0].start { AtOutside(m, j); }
    if i < |m[0].items| { AtReplaced(m, 0, Run(m[0].start + i, m[0].items[i..]), j); } else { AtDropped(m, 0, j); }
  }

  lemma DropPrefixIs<T>(m: Runs<T>, i: nat)
    requires WellFormed(m) && m != [] && i <= |m[0].items|
    ensures Contents(DropPrefix(m, i)) == From(Contents(m), m[0].start + i)
  {
    hide Contents, At, DropPrefix, WellFormed;
    forall j ensures var a, b := Contents(DropPrefix(m, i)), From(Contents(m), m[0].start + i);
        (j in a <==> j in b) && (j in a ==> a[j] == b[j]) {
      ContentsAt(m, j);
      ContentsAt(DropPrefix(m, i), j);
      DropPrefixAt(m, i, j);
    }
  }

  // ---------- insertion ----------

  /** The runs around a number that is not held. */
  lemma MergeGap<T>(m: Runs<T>, n: nat)
    requires WellFormed(m) && n !in Contents(m)
    ensures var k := LowerBound(m, n);
      && (k > 0 ==> End(m[k - 1]) <= n) && (k < |m| ==> n < m[k].start)
      && (k > 1 ==> End(m[k - 2]) < m[k - 1].start) && (k + 1 < |m| ==> End(m[k]) < m[k + 1].start)
  {
    hide Contents, At;
    Located(m, n);
    ContentsAt(m, n);
  }

  function MergeInto<T>(m: Runs<T>, n: nat, x: T): (r: Runs<T>)
    requires WellFormed(m) && n !in Contents(m)
    ensures WellFormed(r)
  {
    MergeGap(m, n);
    var k := LowerBound(m, n);
    if k > 0 && End(m[k - 1]) == n then
      var grown := Run(m[k - 1].start, m[k - 1].items + [x]);
      if k < |m| && m[k].start == n + 1 then
        Replaced(Dropped(m, k), k - 1, Run(grown.start, grown.items + m[k].items))
      else Replaced(m, k - 1, grown)
    else if k < |m| && m[k].start == n + 1 then Replaced(m, k, Run(n, [x] + m[k].items))
    else Inserted(m, k, Run(n, [x]))
  }

  lemma MergeAt<T>(m: Runs<T>, n: nat, x: T, i: nat)
    requires WellFormed(m) && n !in Contents(m)
    ensures At(MergeInto(m, n, x), i) == if i == n then Some(x) else At(m, i)
  {
    hide Contents, At, Replaced, Inserted, Dropped;
    Located(m, n);
    ContentsAt(m, n);
    var k := LowerBound(m, n);
    var left, right := k > 0 && End(m[k - 1]) == n, k < |m| && m[k].start == n + 1;
    if left && right {
      JoinAt(m, k, n, x, i);
    } else if left {
      GrowAt(m, k - 1, Run(m[k - 1].start, m[k - 1].items + [x]), n, x, i);
    } else if right {
      GrowAt(m, k, Run(n, [x] + m[k].items), n, x, i);
    } else {
      AtInserted(m, k, Run(n, [x]), i);
    }
  }

  /** A run that takes in one more number, at either end. */
  lemma GrowAt<T>(m: Runs<T>, k: nat, r: Run<T>, n: nat, x: T, i: nat)
    requires WellFormed(m) && k < |m|
    requires (k > 0 ==> End(m[k - 1]) < r.start) && (k + 1 < |m| ==> End(r) < m[k + 1].start)
    requires (n == End(m[k]) && r == Run(m[k].start, m[k].items + [x])) || (n + 1 == m[k].start && r == Run(n, [x] + m[k].items))
    ensures At(Replaced(m, k, r), i) == if i == n then Some(x) else At(m, i)
  {
    hide At, Replaced;
    AtReplaced(m, k, r, i);
    if InRun(m[k], i) { AtRun(m, k, i); }
  }

  /** Two runs joined by the number between them. */
  lemma JoinAt<T>(m: Runs<T>, k: nat, n: nat, x: T, i: nat)
    requires WellFormed(m) && 0 < k < |m| && End(m[k - 1]) == n && m[k].start == n + 1
    ensures var r := Run(m[k - 1].start, m[k - 1].items + [x] + m[k].items);
      var d := Dropped(m, k);
      && (k > 1 ==> End(d[k - 2]) < r.start) && (k < |d| ==> End(r) < d[k].start)
      && At(Replaced(d, k - 1, r), i) == if i == n then Some(x) else At(m, i)
  {
    var r := Run(m[k - 1].start, m[k - 1].items + [x] + m[k].items);
    var d := Dropped(m, k);
    assert d[k - 1] == m[k - 1] && (k > 1 ==> d[k - 2] == m[k - 2]) && (k < |d| ==> d[k] == m[k + 1]);
    hide At, Replaced, Dropped;
    AtReplaced(d, k - 1, r, i);
    AtDropped(m, k, i);
    if InRun(m[k - 1], i) { AtRun(m, k - 1, i); }
    if InRun(m[k], i) { AtRun(m, k, i); }
  }

  lemma MergeInserts<T>(m: Runs<T>, n: nat, x: T)
    requires WellFormed(m) && n !in Contents(m)
    ensures Contents(MergeInto(m, n, x)) == Contents(m)[n := x]
  {
    hide MergeInto, Contents, At, WellFormed;
    forall i ensures var a, b := Contents(MergeInto(m, n, x)), Contents(m)[n := x];
        (i in a <==> i in b) && (i in a ==> a[i] == b[i]) {
      MergeAt(m, n, x, i);
      ContentsAt(m, i);
      ContentsAt(MergeInto(m, n, x), i);
    }
  }

  // ---------- shape ----------

  /** A held number whose predecessor is not held starts a run. */
  lemma StartsRun<T>(m: Runs<T>, n: nat)
    requires WellFormed(m) && n in Contents(m) && (n > 0 ==> n - 1 !in Contents(m))
    ensures var k := LowerBound(m, n); k < |m| && m[k].start == n
  {
    hide At, Contents;
    Located(m, n);
    ContentsAt(m, n);
    var k := LowerBound(m, n);
    if k > 0 && n < End(m[k - 1]) {
      AtRun(m, k - 1, n - 1);
      ContentsAt(m, n - 1);
    }
  }

  lemma {:induction false} SameAt<T>(a: Runs<T>, b: Runs<T>)
    requires WellFormed(a) && WellFormed(b) && forall n :: At(a, n) == At(b, n)
    ensures a == b
  {
    if a == [] || b == [] {
      if b != [] { AtRun(b, 0, b[0].start); }
      if a != [] { AtRun(a, 0, a[0].start); }
    } else {
      SameFirst(a, b);
      SameFirst(b, a);
      assert a[0].items == b[0].items by {
        forall i | 0 <= i < |a[0].items| ensures a[0].items[i] == b[0].items[i] {
          assert At(a, a[0].start + i) == At(b, a[0].start + i);
        }
      }
      forall n ensures At(a[1..], n) == At(b[1..], n) {
        if InRun(a[0], n) {
          AtOutside(a[1..], n);
          AtOutside(b[1..], n);
        } else {
          assert At(a, n) == At(b, n);
        }
      }
      SameAt(a[1..], b[1..]);
    }
  }

  lemma SameFirst<T>(a: Runs<T>, b: Runs<T>)
    requires WellFormed(a) && WellFormed(b) && a != [] && b != [] && forall n :: At(a, n) == At(b, n)
    ensures b[0].start <= a[0].start && End(a[0]) >= End(b[0])
  {
    hide At;
    AtRun(a, 0, a[0].start);
    if a[0].start < b[0].start { AtOutside(b, a[0].start); }
    if End(a[0]) < End(b[0]) {
      AtOutside(a, End(a[0]));
      assert At(b, End(a[0])) == None;
      AtRun(b, 0, End(a[0]));
    }
  }

  /** Well-formed runs are a canonical form: a plain map is stood for in one way only. */
  lemma Canonical<T>(a: Runs<T>, b: Runs<T>)
    requires WellFormed(a) && WellFormed(b) && Contents(a) == Contents(b)
    ensures a == b
  {
    hide At, Contents;
    forall n ensures At(a, n) == At(b, n) {
      ContentsAt(a, n);
      ContentsAt(b, n);
    }
    SameAt(a, b);
  }
}
