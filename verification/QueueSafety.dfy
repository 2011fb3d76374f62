/**
  What condemning bad blocks does to the queue: the fixpoint of sweeps over the three lists ends, takes exactly
  the condemned blocks out, and leaves no queued or waiting child of a bad block.
 */
module QueueSafety {
  import opened Lines
  import opened QueueSpec

  // ---------- multimap facts ----------

  lemma {:induction false} SplitByParent(s: seq<Block>, p: Hash)
    ensures forall x :: x in WithParent(s, p) <==> x in s && x.parent == p
    ensures forall x :: x in WithoutParent(s, p) <==> x in s && x.parent != p
  {
    if s != [] {
      SplitByParent(s[1..], p);
      assert forall x :: x in s <==> x == s[0] || x in s[1..];
    }
  }

  lemma {:induction false} SplitTotals(s: seq<Block>, p: Hash)
    ensures Size(WithParent(s, p)) + Size(WithoutParent(s, p)) == Size(s)
    ensures Work(WithParent(s, p)) + Work(WithoutParent(s, p)) == Work(s)
  {
    if s != [] {
      SplitTotals(s[1..], p);
      var w, wo := WithParent(s[1..], p), WithoutParent(s[1..], p);
      if s[0].parent == p {
        assert ([s[0]] + w)[1..] == w;
      } else {
        assert ([s[0]] + wo)[1..] == wo;
      }
    }
  }

  lemma SplitHashes(s: seq<Block>, p: Hash)
    ensures Hashes(s) == Hashes(WithParent(s, p)) + Hashes(WithoutParent(s, p))
  {
    SplitByParent(s, p);
    forall b | b in s ensures b.hash in Hashes(WithParent(s, p)) + Hashes(WithoutParent(s, p)) {
      if b.parent == p { assert b in WithParent(s, p); } else { assert b in WithoutParent(s, p); }
    }
  }

  lemma {:induction false} SplitDistinct(s: seq<Block>, p: Hash)
    requires Distinct(s)
    ensures Distinct(WithParent(s, p)) && Distinct(WithoutParent(s, p))
    ensures Hashes(WithParent(s, p)) !! Hashes(WithoutParent(s, p))
  {
    if s != [] {
      SplitDistinct(s[1..], p);
      SplitHashes(s[1..], p);
      var w, wo := WithParent(s[1..], p), WithoutParent(s[1..], p);
      if s[0].parent == p {
        HashesOne(s[0], [s[0]] + w);
        assert ([s[0]] + w)[1..] == w;
      } else {
        HashesOne(s[0], [s[0]] + wo);
        assert ([s[0]] + wo)[1..] == wo;
      }
    }
  }

  lemma {:induction false} HashSeqMembers(s: seq<Block>)
    ensures forall h :: h in HashSeq(s) <==> h in Hashes(s)
  {
    if s != [] {
      HashSeqMembers(s[1..]);
      HashesOne(s[0], s);
    }
  }

  lemma {:induction false} BlocksConcat(a: seq<Slot>, b: seq<Slot>)
    ensures Blocks(a + b) == Blocks(a) + Blocks(b)
  {
    if a == [] {
      assert a + b == b;
    } else {
      assert (a + b)[1..] == a[1..] + b;
      BlocksConcat(a[1..], b);
    }
  }

  lemma {:induction false} BlocksAt(s: seq<Slot>, i: nat)
    requires i < |s|
    ensures Blocks(s)[i] == s[i].block
  {
    if i > 0 { BlocksAt(s[1..], i - 1); }
  }

  lemma BlocksMembers(s: seq<Slot>)
    ensures forall x :: x in s ==> x.block in Blocks(s)
    ensures forall b :: b in Blocks(s) ==> exists i :: 0 <= i < |s| && s[i].block == b
  {
    forall i | 0 <= i < |s| ensures Blocks(s)[i] == s[i].block { BlocksAt(s, i); }
  }

  // ---------- the waiting pool ----------

  /** The unknown set is exactly the hashes in the multimap, and the unknown counters are exact. */
  predicate WaitingExact(q: Queue) {
    && Distinct(q.unknown)
    && q.unknownSet == Hashes(q.unknown)
    && q.unknownCount == |q.unknown| + |q.future|
    && q.unknownSize == Size(q.unknown) + Size(q.future)
  }

  /** q' is q except for the waiting pool and the known-bad set. */
  predicate OnlyWaitingChanged(q: Queue, q': Queue) {
    q' == q.(unknown := q'.unknown, unknownSet := q'.unknownSet, knownBad := q'.knownBad,
             unknownCount := q'.unknownCount, unknownSize := q'.unknownSize)
  }

  lemma CondemnKeeps(q: Queue, h: Hash)
    requires WaitingExact(q) && q.knownBad !! q.unknownSet
    ensures var q' := Condemn(q, h);
      && WaitingExact(q') && q'.knownBad !! q'.unknownSet && OnlyWaitingChanged(q, q')
      && q'.unknownSet <= q.unknownSet
      && q.knownBad <= q'.knownBad <= q.knownBad + q.unknownSet
      && (forall x :: x in q'.unknown <==> x in q.unknown && x.parent != h)
      && Work(q'.unknown) <= Work(q.unknown)
  {
    SplitByParent(q.unknown, h);
    SplitTotals(q.unknown, h);
    SplitHashes(q.unknown, h);
    SplitDistinct(q.unknown, h);
  }

  /** The worklist of collectUnknownBad leaves no waiting block whose parent is known bad. */
  lemma {:induction false} CollectKeeps(q: Queue, work: seq<Hash>)
    requires WaitingExact(q) && q.knownBad !! q.unknownSet
    requires forall h :: h in work ==> h in q.knownBad
    requires forall u :: u in q.unknown && u.parent in q.knownBad ==> u.parent in work
    ensures var q' := CollectUnknownBad(q, work);
      && WaitingExact(q') && q'.knownBad !! q'.unknownSet && OnlyWaitingChanged(q, q')
      && q'.unknownSet <= q.unknownSet
      && q.knownBad <= q'.knownBad <= q.knownBad + q.unknownSet
      && (forall u :: u in q'.unknown ==> u in q.unknown && u.parent !in q'.knownBad)
      && Work(q'.unknown) <= Work(q.unknown)
    decreases |q.unknown|, |work|
  {
    if work != [] {
      var kids := WithParent(q.unknown, work[0]);
      var q1, work1 := Condemn(q, work[0]), work[1..] + HashSeq(kids);
      CondemnKeeps(q, work[0]);
      HashSeqMembers(kids);
      forall u | u in q1.unknown && u.parent in q1.knownBad ensures u.parent in work1 {
        if u.parent in q.knownBad { assert u.parent in work; }
      }
      CollectKeeps(q1, work1);
    }
  }

  // ---------- pruning the line ----------

  /** The relation between the queue's sets and a line of blocks that holds throughout the bad-block sweeps. */
  predicate Sound(q: Queue, line: seq<Block>) {
    && WaitingExact(q)
    && Distinct(line)
    && q.ready == Hashes(line)
    && q.ready !! q.unknownSet
    && q.knownBad !! q.ready
    && q.knownBad !! q.unknownSet
    && (forall u :: u in q.unknown ==> u.parent !in q.knownBad && u.parent !in q.ready)
  }

  /** Dropping one queued block removes exactly that block from the line. */
  lemma DropKeeps(q: Queue, a: seq<Block>, x: Block, b: seq<Block>)
    requires Sound(q, a + [x] + b)
    ensures var q' := Drop(q, x.hash);
      && Sound(q', a + b) && OnlyWaitingChanged(q.(ready := q'.ready), q')
      && q.knownBad + {x.hash} <= q'.knownBad <= q.knownBad + {x.hash} + q.unknownSet
      && (forall u :: u in q'.unknown ==> u in q.unknown)
      && x.hash in q.ready && q'.ready <= q.ready
      && Keep(a + [x] + b, q'.knownBad) == a + b
      && q'.unknownSet <= q.unknownSet && Work(q'.unknown) <= Work(q.unknown)
  {
    Around(a, x, b);
    var q1 := q.(knownBad := q.knownBad + {x.hash}, ready := q.ready - {x.hash});
    var q' := Drop(q, x.hash);
    assert q1.ready == Hashes(a + b);
    CollectKeeps(q1, [x.hash]) by { hide Distinct, Size, Work; }
    AroundKeep(a, x, b, q'.knownBad);
  }

  lemma Around(a: seq<Block>, x: Block, b: seq<Block>)
    ensures Hashes(a + [x] + b) == Hashes(a + b) + {x.hash}
    ensures Distinct(a + [x] + b) ==> Distinct(a + b) && x.hash !in Hashes(a + b)
  {
    assert a + [x] + b == a + ([x] + b);
    DistinctConcat(a, [x] + b);
    DistinctConcat([x], b);
    DistinctConcat(a, b);
    HashesConcat(a, [x] + b);
    HashesConcat([x], b);
    HashesConcat(a, b);
    HashesOne(x, [x]);
  }

  lemma AroundKeep(a: seq<Block>, x: Block, b: seq<Block>, bad: set<Hash>)
    requires x.hash in bad && Hashes(a + b) !! bad
    ensures Keep(a + [x] + b, bad) == a + b
  {
    assert a + [x] + b == a + ([x] + b);
    KeepConcat(a, [x] + b, bad);
    KeepConcat([x], b, bad);
    HashesConcat(a, b);
    KeepAll(a, bad);
    KeepAll(b, bad);
  }

  /** q' comes from q by sweeping: the line lost exactly its known-bad blocks, and the pools stayed exact. */
  predicate Swept(q: Queue, line: seq<Block>, q': Queue, line': seq<Block>) {
    && Sound(q', line')
    && line' == Keep(line, q'.knownBad)
    && q.knownBad <= q'.knownBad <= q.knownBad + q.ready + q.unknownSet
    && q'.ready <= q.ready
    && q'.unknownSet <= q.unknownSet
    && (forall u :: u in q'.unknown ==> u in q.unknown)
    && Work(q'.unknown) <= Work(q.unknown)
    && OnlyWaitingChanged(q.(ready := q'.ready, verified := q'.verified, verifying := q'.verifying,
                             unverified := q'.unverified), q')
  }

  lemma SweptNothing(q: Queue, line: seq<Block>)
    requires Sound(q, line)
    ensures Swept(q, line, q, line)
  {
    KeepAll(line, q.knownBad);
  }

  lemma SweptTrans(q0: Queue, l0: seq<Block>, q1: Queue, l1: seq<Block>, q2: Queue, l2: seq<Block>)
    requires Swept(q0, l0, q1, l1) && Swept(q1, l1, q2, l2)
    ensures Swept(q0, l0, q2, l2)
  {
    KeepTwice(l0, q1.knownBad, q2.knownBad);
    assert q1.knownBad + q2.knownBad == q2.knownBad;
  }

  lemma {:induction false} SweepVerifiedKeeps(q: Queue, todo: seq<Block>, tail: seq<Block>)
    requires Sound(q, q.verified + todo + tail)
    ensures var q' := SweepVerified(q, todo);
      && Swept(q, q.verified + todo + tail, q', q'.verified + tail)
      && q'.verifying == q.verifying && q'.unverified == q.unverified
      && |q'.verified| <= |q.verified| + |todo|
      && (|q'.verified| == |q.verified| + |todo| ==>
            q' == q.(verified := q.verified + todo) && forall x :: x in todo ==> !IsBad(q, x))
    decreases |todo|
  {
    hide Distinct, Keep, Size, Work;
    var line := q.verified + todo + tail;
    if todo == [] {
      assert line == q.verified + tail && q.verified + todo == q.verified;
      SweptNothing(q, line);
    } else {
      var x := todo[0];
      assert line == q.verified + [x] + (todo[1..] + tail);
      assert forall y :: y in todo <==> y == x || y in todo[1..];
      if IsBad(q, x) {
        var q1 := Drop(q, x.hash);
        DropKeeps(q, q.verified, x, todo[1..] + tail);
        assert q.verified + (todo[1..] + tail) == q1.verified + todo[1..] + tail;
        SweepVerifiedKeeps(q1, todo[1..], tail);
        var q' := SweepVerified(q1, todo[1..]);
        SweptTrans(q, line, q1, q1.verified + todo[1..] + tail, q', q'.verified + tail);
      } else {
        var q1 := q.(verified := q.verified + [x]);
        assert line == q1.verified + todo[1..] + tail;
        SweepVerifiedKeeps(q1, todo[1..], tail);
        assert q1.verified + todo[1..] == q.verified + todo;
      }
    }
  }

  lemma {:induction false} SweepUnverifiedKeeps(q: Queue, front: seq<Block>, todo: seq<Block>)
    requires Sound(q, front + q.unverified + todo)
    ensures var q' := SweepUnverified(q, todo);
      && Swept(q, front + q.unverified + todo, q', front + q'.unverified)
      && q'.verifying == q.verifying && q'.verified == q.verified
      && |q'.unverified| <= |q.unverified| + |todo|
      && (|q'.unverified| == |q.unverified| + |todo| ==>
            q' == q.(unverified := q.unverified + todo) && forall x :: x in todo ==> !IsBad(q, x))
    decreases |todo|
  {
    hide Distinct, Keep, Size, Work;
    var line := front + q.unverified + todo;
    if todo == [] {
      assert line == front + q.unverified && q.unverified + todo == q.unverified;
      SweptNothing(q, line);
    } else {
      var x := todo[0];
      assert line == (front + q.unverified) + [x] + todo[1..];
      assert forall y :: y in todo <==> y == x || y in todo[1..];
      if IsBad(q, x) {
        var q1 := Drop(q, x.hash);
        DropKeeps(q, front + q.unverified, x, todo[1..]);
        SweepUnverifiedKeeps(q1, front, todo[1..]);
        var q' := SweepUnverified(q1, todo[1..]);
        SweptTrans(q, line, q1, front + q1.unverified + todo[1..], q', front + q'.unverified);
      } else {
        var q1 := q.(unverified := q.unverified + [x]);
        assert line == front + q1.unverified + todo[1..];
        SweepUnverifiedKeeps(q1, front, todo[1..]);
        assert q1.unverified + todo[1..] == q.unverified + todo;
      }
    }
  }

  lemma {:induction false} SweepVerifyingKeeps(q: Queue, front: seq<Block>, todo: seq<Slot>, tail: seq<Block>)
    requires Sound(q, front + Blocks(q.verifying) + Blocks(todo) + tail)
    ensures var q' := SweepVerifying(q, todo);
      && Swept(q, front + Blocks(q.verifying) + Blocks(todo) + tail, q', front + Blocks(q'.verifying) + tail)
      && q'.unverified == q.unverified && q'.verified == q.verified
    decreases |todo|
  {
    hide Distinct, Keep, Size, Work, Sound, Swept;
    var line := front + Blocks(q.verifying) + Blocks(todo) + tail;
    if todo == [] {
      assert line == front + Blocks(q.verifying) + tail;
      SweptNothing(q, line);
    } else {
      var s := todo[0];
      var before := front + Blocks(q.verifying);
      assert Blocks(todo) == [s.block] + Blocks(todo[1..]);
      if IsBadSlot(q, s) {
        assert line == before + [s.block] + (Blocks(todo[1..]) + tail);
        var q1 := Drop(q, s.block.hash);
        DropSweeps(q, before, s.block, Blocks(todo[1..]) + tail);
        var line1 := front + Blocks(q1.verifying) + Blocks(todo[1..]) + tail;
        assert before + (Blocks(todo[1..]) + tail) == line1;
        SweepVerifyingKeeps(q1, front, todo[1..], tail);
        var q' := SweepVerifying(q1, todo[1..]);
        SweptTrans(q, line, q1, line1, q', front + Blocks(q'.verifying) + tail);
      } else {
        var q1 := q.(verifying := q.verifying + [s]);
        BlocksConcat(q.verifying, [s]);
        assert line == front + Blocks(q1.verifying) + Blocks(todo[1..]) + tail;
        OtherSlots(q, q1, line);
        SweepVerifyingKeeps(q1, front, todo[1..], tail);
        var q' := SweepVerifying(q1, todo[1..]);
        OtherSlotsSwept(q, q1, line, q', front + Blocks(q'.verifying) + tail);
      }
    }
  }

  /** Dropping one block is a sweep, and leaves the lists of slots and blocks. */
  lemma DropSweeps(q: Queue, a: seq<Block>, x: Block, b: seq<Block>)
    requires Sound(q, a + [x] + b)
    ensures var q' := Drop(q, x.hash);
      && Sound(q', a + b) && Swept(q, a + [x] + b, q', a + b)
      && q'.verified == q.verified && q'.verifying == q.verifying && q'.unverified == q.unverified
  {
    DropKeeps(q, a, x, b);
    hide Keep, Work, Size, Drop;
    Around(a, x, b);
  }

  /** What a sound queue promises does not depend on the slots themselves. */
  lemma OtherSlots(q: Queue, q1: Queue, line: seq<Block>)
    requires Sound(q, line) && q1 == q.(verifying := q1.verifying)
    ensures Sound(q1, line)
  {
    hide Distinct, Work, Size;
  }

  lemma OtherSlotsSwept(q: Queue, q1: Queue, line: seq<Block>, q': Queue, line': seq<Block>)
    requires Swept(q1, line, q', line') && q1 == q.(verifying := q1.verifying)
    ensures Swept(q, line, q', line')
  {
    hide Sound, Keep, Work, Size;
  }

  /** What the worklist does to the fields the sweeps do not scan. */
  lemma {:induction false} CollectFrame(q: Queue, work: seq<Hash>)
    ensures var q' := CollectUnknownBad(q, work); OnlyWaitingChanged(q, q') && q.knownBad <= q'.knownBad
    decreases |q.unknown|, |work|
  {
    if work != [] {
      CollectFrame(Condemn(q, work[0]), work[1..] + HashSeq(WithParent(q.unknown, work[0])));
    }
  }

  lemma {:induction false} SweepVerifyingSlots(q: Queue, todo: seq<Slot>)
    ensures var q' := SweepVerifying(q, todo);
      && q.knownBad <= q'.knownBad
      && |q'.verifying| <= |q.verifying| + |todo|
      && (|q'.verifying| == |q.verifying| + |todo| ==>
            q' == q.(verifying := q.verifying + todo) && forall s :: s in todo ==> !IsBadSlot(q, s))
      && (forall s :: s in q'.verifying ==> s in q.verifying + todo)
      && (forall s :: s in q.verifying + todo ==> s in q'.verifying || s.block.hash in q'.knownBad)
    decreases |todo|
  {
    if todo == [] {
      assert q.verifying + todo == q.verifying;
    } else {
      var s := todo[0];
      assert forall y :: y in todo <==> y == s || y in todo[1..];
      if IsBadSlot(q, s) {
        CollectFrame(q.(knownBad := q.knownBad + {s.block.hash}, ready := q.ready - {s.block.hash}), [s.block.hash]);
        SweepVerifyingSlots(Drop(q, s.block.hash), todo[1..]);
      } else {
        var q1 := q.(verifying := q.verifying + [s]);
        SweepVerifyingSlots(q1, todo[1..]);
        assert q1.verifying + todo[1..] == q.verifying + todo;
      }
    }
  }

  /** Entries are only ever removed, verifying ones only for being known bad. */
  predicate SlotsSurvive(q: Queue, q': Queue) {
    && (forall s :: s in q'.verifying ==> s in q.verifying)
    && (forall s :: s in q.verifying ==> s in q'.verifying || s.block.hash in q'.knownBad)
    && (forall b :: b in q'.verified ==> b in q.verified)
  }

  lemma {:induction false} SweepVerifiedMembers(q: Queue, todo: seq<Block>)
    ensures forall b :: b in SweepVerified(q, todo).verified ==> b in q.verified || b in todo
    decreases |todo|
  {
    if todo != [] {
      var x := todo[0];
      if IsBad(q, x) {
        CollectFrame(q.(knownBad := q.knownBad + {x.hash}, ready := q.ready - {x.hash}), [x.hash]);
        SweepVerifiedMembers(Drop(q, x.hash), todo[1..]);
      } else {
        SweepVerifiedMembers(q.(verified := q.verified + [x]), todo[1..]);
      }
    }
  }

  predicate NoBadParent(q: Queue) {
    forall b :: b in q.Line() ==> b.parent !in q.knownBad
  }

  lemma ScanVerified(q: Queue)
    requires Sound(q, q.Line())
    ensures var q' := SweepVerified(q.(verified := []), q.verified);
      && Swept(q, q.Line(), q', q'.Line()) && q'.verifying == q.verifying
      && Load(q') <= Load(q) && (forall b :: b in q'.verified ==> b in q.verified)
      && (Load(q') == Load(q) ==> q' == q && forall b :: b in q.verified ==> b.parent !in q.knownBad)
  {
    hide Distinct, Keep, Size, Work;
    var q0 := q.(verified := []);
    var tail := Blocks(q.verifying) + q.unverified;
    assert q.Line() == q0.verified + q.verified + tail;
    SweepVerifiedKeeps(q0, q.verified, tail);
    SweepVerifiedMembers(q0, q.verified);
    var q' := SweepVerified(q0, q.verified);
    assert q'.verified + tail == q'.Line();
    assert q0.verified + q.verified == q.verified;
  }

  lemma ScanUnverified(q: Queue)
    requires Sound(q, q.Line())
    ensures var q' := SweepUnverified(q.(unverified := []), q.unverified);
      && Swept(q, q.Line(), q', q'.Line()) && q'.verifying == q.verifying && q'.verified == q.verified
      && Load(q') <= Load(q)
      && (Load(q') == Load(q) ==> q' == q && forall b :: b in q.unverified ==> b.parent !in q.knownBad)
  {
    hide Distinct, Keep, Size, Work;
    var q0 := q.(unverified := []);
    var front := q.verified + Blocks(q.verifying);
    assert front + q0.unverified + q.unverified == q.Line();
    SweepUnverifiedKeeps(q0, front, q.unverified);
    assert q0.unverified + q.unverified == q.unverified;
  }

  lemma ScanVerifying(q: Queue)
    requires Sound(q, q.Line())
    ensures var q' := SweepVerifying(q.(verifying := []), q.verifying);
      && Swept(q, q.Line(), q', q'.Line()) && SlotsSurvive(q, q')
      && Load(q') <= Load(q)
      && (Load(q') == Load(q) ==> q' == q && forall b :: b in Blocks(q.verifying) ==> b.parent !in q.knownBad)
  {
    hide Distinct, Keep, Size, Work;
    var q0 := q.(verifying := []);
    assert q.verified + Blocks(q0.verifying) + Blocks(q.verifying) + q.unverified == q.Line();
    SweepVerifyingKeeps(q0, q.verified, q.verifying, q.unverified);
    assert q0.verifying + q.verifying == q.verifying;
    SweepVerifyingSlots(q0, q.verifying);
    BlocksMembers(q.verifying);
  }

  lemma SweepRoundKeeps(q: Queue)
    requires Sound(q, q.Line())
    ensures var q' := SweepRound(q);
      && Swept(q, q.Line(), q', q'.Line()) && SlotsSurvive(q, q') && Load(q') <= Load(q)
      && (Load(q') == Load(q) ==> NoBadParent(q'))
  {
    hide Distinct, Keep, Size, Work, Blocks;
    ScanVerified(q);
    var q1 := SweepVerified(q.(verified := []), q.verified);
    ScanUnverified(q1);
    var q2 := SweepUnverified(q1.(unverified := []), q1.unverified);
    ScanVerifying(q2);
    var q3 := SweepVerifying(q2.(verifying := []), q2.verifying);
    SweptTrans(q, q.Line(), q1, q1.Line(), q2, q2.Line());
    SweptTrans(q, q.Line(), q2, q2.Line(), q3, q3.Line());
  }

  lemma {:induction false} SweepAllKeeps(q: Queue)
    requires Sound(q, q.Line())
    ensures var q' := SweepAll(q); Swept(q, q.Line(), q', q'.Line()) && SlotsSurvive(q, q') && NoBadParent(q')
    decreases Load(q)
  {
    SweepRoundKeeps(q);
    var q1 := SweepRound(q);
    if Load(q1) < Load(q) {
      SweepAllKeeps(q1);
      SweptTrans(q, q.Line(), q1, q1.Line(), SweepAll(q1), SweepAll(q1).Line());
    }
  }

  /** Sound, except that waiting children of the hashes in `novel` may not have been condemned yet. */
  predicate NearlySound(q: Queue, line: seq<Block>, novel: set<Hash>) {
    && novel <= q.knownBad
    && WaitingExact(q) && Distinct(line) && q.ready == Hashes(line) && q.ready !! q.unknownSet
    && q.knownBad !! q.ready && q.knownBad !! q.unknownSet
    && (forall u :: u in q.unknown ==> (u.parent in q.knownBad ==> u.parent in novel) && u.parent !in q.ready)
  }

  /**
    updateBad ends, and afterwards no queued and no waiting block has a known-bad parent; the line lost
    exactly the blocks that are now known bad.
   */
  lemma UpdateBadKeeps(q: Queue, bad: Hash)
    requires bad in q.knownBad && NearlySound(q, q.Line(), {bad})
    ensures var q' := UpdateBad(q, bad);
      && Swept(q, q.Line(), q', q'.Line()) && SlotsSurvive(q, q') && NoBadParent(q')
  {
    CollectKeeps(q, [bad]);
    var q1 := CollectUnknownBad(q, [bad]);
    assert Sound(q1, q1.Line());
    KeepAll(q.Line(), q1.knownBad);
    assert Swept(q, q.Line(), q1, q1.Line());
    SweepAllKeeps(q1);
    SweptTrans(q, q.Line(), q1, q1.Line(), SweepAll(q1), SweepAll(q1).Line());
  }

  lemma {:induction false} UpdateBadAllKeeps(q: Queue, bads: seq<Hash>)
    requires Sound(q, q.Line()) && forall h :: h in bads ==> h in q.knownBad
    ensures var q' := UpdateBadAll(q, bads);
      Swept(q, q.Line(), q', q'.Line()) && SlotsSurvive(q, q') && (bads != [] ==> NoBadParent(q'))
    decreases |bads|
  {
    if bads == [] {
      SweptNothing(q, q.Line());
    } else {
      UpdateBadKeeps(q, bads[0]);
      var q1 := UpdateBad(q, bads[0]);
      UpdateBadAllKeeps(q1, bads[1..]);
      SweptTrans(q, q.Line(), q1, q1.Line(), UpdateBadAll(q1, bads[1..]), UpdateBadAll(q1, bads[1..]).Line());
    }
  }
}
