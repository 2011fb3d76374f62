/**
  Sequences of queued blocks ("lines") and the order-theoretic facts the block queue needs:
  distinct hashes, parents before children, pruning of bad blocks, subsequences and totals.
 */
module Lines {

  type Hash = nat

  /** What the queue keeps of a block: its header hash, parent hash, byte size, difficulty and timestamp. */
  datatype Block = Block(hash: Hash, parent: Hash, size: nat, difficulty: nat, time: nat)

  function Hashes(s: seq<Block>): set<Hash> {
    set b | b in s :: b.hash
  }

  predicate Distinct(s: seq<Block>) {
    s == [] || (s[0].hash !in Hashes(s[1..]) && Distinct(s[1..]))
  }

  /** Every block's parent is in `base` or is the hash of an earlier block of the line. */
  predicate Ordered(s: seq<Block>, base: set<Hash>) {
    s == [] || (s[0].parent in base && Ordered(s[1..], base + {s[0].hash}))
  }

  /** The blocks of a line whose own hash is not in `bad`, in order. */
  function Keep(s: seq<Block>, bad: set<Hash>): (r: seq<Block>)
    ensures |r| <= |s|
  {
    if s == [] then []
    else if s[0].hash in bad then Keep(s[1..], bad)
    else [s[0]] + Keep(s[1..], bad)
  }

  function Size(s: seq<Block>): nat {
    if s == [] then 0 else s[0].size + Size(s[1..])
  }

  function Work(s: seq<Block>): nat {
    if s == [] then 0 else s[0].difficulty + Work(s[1..])
  }

  /** `a` can be obtained from `b` by deleting elements. */
  predicate Subsequence<T(==)>(a: seq<T>, b: seq<T>) {
    a == [] || (b != [] && ((a[0] == b[0] && Subsequence(a[1..], b[1..])) || Subsequence(a, b[1..])))
  }

  // ---------- hashes and distinctness ----------

  lemma HashesConcat(a: seq<Block>, b: seq<Block>)
    ensures Hashes(a + b) == Hashes(a) + Hashes(b)
  {
    forall h | h in Hashes(a) + Hashes(b) ensures h in Hashes(a + b) {
      if h in Hashes(a) {
        var x :| x in a && x.hash == h;
        assert x in a + b;
      } else {
        var x :| x in b && x.hash == h;
        assert x in a + b;
      }
    }
  }

  lemma HashesOne(x: Block, s: seq<Block>)
    requires s != [] && s[0] == x
    ensures Hashes(s) == {x.hash} + Hashes(s[1..])
    ensures Hashes([x]) == {x.hash}
  {
    assert s == [x] + s[1..];
    HashesConcat([x], s[1..]);
    assert forall y :: y in [x] <==> y == x;
  }

  lemma {:induction false} DistinctConcat(a: seq<Block>, b: seq<Block>)
    ensures Distinct(a + b) <==> Distinct(a) && Distinct(b) && Hashes(a) !! Hashes(b)
  {
    if a == [] {
      assert a + b == b;
    } else {
      assert (a + b)[1..] == a[1..] + b;
      DistinctConcat(a[1..], b);
      HashesConcat(a[1..], b);
      HashesOne(a[0], a);
      assert Hashes(a) !! Hashes(b) <==> a[0].hash !in Hashes(b) && Hashes(a[1..]) !! Hashes(b);
    }
  }

  lemma DistinctAppend(s: seq<Block>, x: Block)
    requires Distinct(s) && x.hash !in Hashes(s)
    ensures Distinct(s + [x]) && Hashes(s + [x]) == Hashes(s) + {x.hash}
  {
    HashesOne(x, [x]);
    assert Distinct([x]);
    DistinctConcat(s, [x]);
    HashesConcat(s, [x]);
  }

  lemma {:induction false} DistinctLookup(s: seq<Block>, x: Block, y: Block)
    requires Distinct(s) && x in s && y in s && x.hash == y.hash
    ensures x == y
  {
    if x != s[0] && y != s[0] {
      DistinctLookup(s[1..], x, y);
    }
  }

  // ---------- pruning ----------

  lemma {:induction false} KeepConcat(a: seq<Block>, b: seq<Block>, bad: set<Hash>)
    ensures Keep(a + b, bad) == Keep(a, bad) + Keep(b, bad)
  {
    if a == [] {
      assert a + b == b;
    } else {
      assert (a + b)[1..] == a[1..] + b;
      KeepConcat(a[1..], b, bad);
    }
  }

  lemma {:induction false} KeepTwice(s: seq<Block>, b1: set<Hash>, b2: set<Hash>)
    ensures Keep(Keep(s, b1), b2) == Keep(s, b1 + b2)
  {
    if s != [] {
      KeepTwice(s[1..], b1, b2);
      var head := if s[0].hash in b1 then [] else [s[0]];
      KeepConcat(head, Keep(s[1..], b1), b2);
    }
  }

  lemma {:induction false} KeepAll(s: seq<Block>, bad: set<Hash>)
    requires Hashes(s) !! bad
    ensures Keep(s, bad) == s
  {
    if s != [] {
      HashesOne(s[0], s);
      KeepAll(s[1..], bad);
    }
  }

  lemma {:induction false} KeepMembers(s: seq<Block>, bad: set<Hash>)
    ensures forall x :: x in Keep(s, bad) <==> x in s && x.hash !in bad
    ensures Hashes(Keep(s, bad)) == Hashes(s) - bad
  {
    if s != [] {
      KeepMembers(s[1..], bad);
      HashesOne(s[0], s);
    }
    forall h | h in Hashes(s) - bad ensures h in Hashes(Keep(s, bad)) {
      var x :| x in s && x.hash == h;
      assert x in Keep(s, bad);
    }
  }

  lemma {:induction false} KeepTotals(s: seq<Block>, bad: set<Hash>)
    ensures Size(Keep(s, bad)) <= Size(s) && Work(Keep(s, bad)) <= Work(s)
  {
    if s != [] {
      KeepTotals(s[1..], bad);
      var rest := Keep(s[1..], bad);
      assert ([s[0]] + rest)[1..] == rest;
      assert [] + rest == rest;
    }
  }

  lemma {:induction false} TotalsConcat(a: seq<Block>, b: seq<Block>)
    ensures Size(a + b) == Size(a) + Size(b) && Work(a + b) == Work(a) + Work(b)
  {
    if a == [] {
      assert a + b == b;
    } else {
      assert (a + b)[1..] == a[1..] + b;
      TotalsConcat(a[1..], b);
    }
  }

  // ---------- order ----------

  lemma {:induction false} OrderedWeaken(s: seq<Block>, base: set<Hash>, wider: set<Hash>)
    requires Ordered(s, base) && base <= wider
    ensures Ordered(s, wider)
  {
    if s != [] {
      OrderedWeaken(s[1..], base + {s[0].hash}, wider + {s[0].hash});
    }
  }

  lemma {:induction false} OrderedConcat(a: seq<Block>, b: seq<Block>, base: set<Hash>)
    ensures Ordered(a + b, base) <==> Ordered(a, base) && Ordered(b, base + Hashes(a))
  {
    if a == [] {
      assert a + b == b;
      assert base + Hashes(a) == base;
    } else {
      assert (a + b)[1..] == a[1..] + b;
      OrderedConcat(a[1..], b, base + {a[0].hash});
      HashesOne(a[0], a);
      assert base + {a[0].hash} + Hashes(a[1..]) == base + Hashes(a);
    }
  }

  /** Removing blocks that the base already accounts for leaves every parent before its children. */
  lemma {:induction false} KeepOrdered(s: seq<Block>, bad: set<Hash>, base: set<Hash>)
    requires Ordered(s, base) && bad <= base
    ensures Ordered(Keep(s, bad), base)
  {
    if s != [] {
      var rest := Keep(s[1..], bad);
      KeepOrdered(s[1..], bad, base + {s[0].hash});
      if s[0].hash in bad {
        assert base + {s[0].hash} == base;
        assert [] + rest == rest;
      } else {
        assert ([s[0]] + rest)[1..] == rest;
      }
    }
  }

  lemma {:induction false} OrderedDropBase(s: seq<Block>, base: set<Hash>, bad: set<Hash>)
    requires Ordered(s, base + bad) && forall x :: x in s ==> x.parent !in bad
    ensures Ordered(s, base)
  {
    if s != [] {
      assert forall x :: x in s[1..] ==> x in s;
      assert base + {s[0].hash} + bad == base + bad + {s[0].hash};
      OrderedDropBase(s[1..], base + {s[0].hash}, bad);
    }
  }

  // ---------- subsequences ----------

  lemma {:induction false} SubsequenceRefl<T>(a: seq<T>)
    ensures Subsequence(a, a)
  {
    if a != [] { SubsequenceRefl(a[1..]); }
  }

  lemma {:induction false} SubsequenceConcat<T>(a: seq<T>, b: seq<T>, c: seq<T>, d: seq<T>)
    requires Subsequence(a, b) && Subsequence(c, d)
    ensures Subsequence(a + c, b + d)
    decreases |b|
  {
    if b == [] {
      assert a + c == c && b + d == d;
    } else {
      assert (b + d)[1..] == b[1..] + d;
      if a != [] && a[0] == b[0] && Subsequence(a[1..], b[1..]) {
        assert (a + c)[1..] == a[1..] + c;
        SubsequenceConcat(a[1..], b[1..], c, d);
      } else {
        SubsequenceConcat(a, b[1..], c, d);
      }
    }
  }

  lemma {:induction false} SubsequenceTrans<T>(a: seq<T>, b: seq<T>, c: seq<T>)
    requires Subsequence(a, b) && Subsequence(b, c)
    ensures Subsequence(a, c)
    decreases |c|
  {
    if a != [] && b != [] {
      if b[0] == c[0] && Subsequence(b[1..], c[1..]) {
        if a[0] == b[0] && Subsequence(a[1..], b[1..]) {
          SubsequenceTrans(a[1..], b[1..], c[1..]);
        } else {
          SubsequenceTrans(a, b[1..], c[1..]);
        }
      } else {
        SubsequenceTrans(a, b, c[1..]);
      }
    }
  }

  lemma {:induction false} KeepSubsequence(s: seq<Block>, bad: set<Hash>)
    ensures Subsequence(Keep(s, bad), s)
  {
    if s != [] {
      var rest := Keep(s[1..], bad);
      KeepSubsequence(s[1..], bad);
      assert ([s[0]] + rest)[1..] == rest;
      assert [] + rest == rest;
    }
  }
}
