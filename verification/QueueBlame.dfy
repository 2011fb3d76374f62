/**
  Who is condemned: exactly the queued and waiting blocks that descend, by parent links among such blocks, from
  a block known bad already.
 */
module QueueBlame {
  import opened Lines
  import opened QueueSpec
  import opened QueueSafety

  /** Each block is the child of the one before, the first one of a root. */
  predicate IsPath(pool: set<Block>, roots: set<Hash>, path: seq<Block>) {
    && path != [] && (forall b :: b in path ==> b in pool) && path[0].parent in roots
    && (forall i :: 0 < i < |path| ==> path[i].parent == path[i - 1].hash)
  }

  ghost predicate Descends(pool: set<Block>, roots: set<Hash>, h: Hash) {
    exists path: seq<Block> :: IsPath(pool, roots, path) && path[|path| - 1].hash == h
  }

  lemma ChildDescends(pool: set<Block>, roots: set<Hash>, b: Block)
    requires b in pool && (b.parent in roots || Descends(pool, roots, b.parent))
    ensures Descends(pool, roots, b.hash)
  {
    if b.parent in roots {
      assert IsPath(pool, roots, [b]) && [b][|[b]| - 1].hash == b.hash;
    } else {
      var path: seq<Block> :| IsPath(pool, roots, path) && path[|path| - 1].hash == b.parent;
      var longer := path + [b];
      assert IsPath(pool, roots, longer) && longer[|longer| - 1].hash == b.hash;
    }
  }

  /** The blocks and known-bad hashes that a sweep starts with, and the blocks that wait. */
  datatype Ground = Ground(pool: set<Block>, roots: set<Hash>, waiting: set<Block>)

  predicate WithinPool(q: Queue, pool: set<Block>) {
    && (forall b :: b in q.unknown ==> b in pool) && (forall b :: b in q.verified ==> b in pool)
    && (forall b :: b in q.unverified ==> b in pool) && (forall s :: s in q.verifying ==> s.block in pool)
  }

  predicate HasBadParent(pool: set<Block>, bad: set<Hash>, h: Hash) {
    exists b :: b in pool && b.hash == h && b.parent in bad
  }

  /** Every bad hash is a root or a descendant of one, with a bad parent. */
  ghost predicate Grounded(g: Ground, bad: set<Hash>) {
    forall h :: h in bad && h !in g.roots ==> Descends(g.pool, g.roots, h) && HasBadParent(g.pool, bad, h)
  }

  /** The known-bad hashes are the roots and descendants of theirs, and no waiting block was lost. */
  ghost predicate Blamed(q: Queue, g: Ground) {
    && WithinPool(q, g.pool) && g.roots <= q.knownBad
    && Grounded(g, q.knownBad)
    && (forall u :: u in g.waiting ==> u in q.unknown || u.hash in q.knownBad)
  }

  /** Condemning children of condemned blocks. */
  lemma MoreBad(g: Ground, bad: set<Hash>, kids: seq<Block>, bad': set<Hash>)
    requires Grounded(g, bad) && bad' == bad + Hashes(kids)
    requires forall k :: k in kids ==> k in g.pool && k.parent in bad
    ensures Grounded(g, bad')
  {
    forall h | h in bad' && h !in g.roots ensures Descends(g.pool, g.roots, h) && HasBadParent(g.pool, bad', h) {
      if h in bad {
        assert HasBadParent(g.pool, bad, h);
        var b :| b in g.pool && b.hash == h && b.parent in bad;
        assert b.parent in bad';
      } else {
        var k :| k in kids && k.hash == h;
        ChildDescends(g.pool, g.roots, k);
        assert k in g.pool && k.hash == h && k.parent in bad';
      }
    }
  }

  lemma CondemnBlamed(q: Queue, h: Hash, g: Ground)
    requires Blamed(q, g) && h in q.knownBad
    ensures Blamed(Condemn(q, h), g)
  {
    SplitByParent(q.unknown, h);
    var kids := WithParent(q.unknown, h);
    MoreBad(g, q.knownBad, kids, q.knownBad + Hashes(kids));
    hide Grounded;
    forall u | u in g.waiting ensures u in Condemn(q, h).unknown || u.hash in Condemn(q, h).knownBad {
      if u in kids { assert u.hash in Hashes(kids); }
    }
  }

  lemma {:induction false} CollectBlamed(q: Queue, work: seq<Hash>, g: Ground)
    requires Blamed(q, g) && forall h :: h in work ==> h in q.knownBad
    ensures Blamed(CollectUnknownBad(q, work), g)
    decreases |q.unknown|, |work|
  {
    if work != [] {
      CondemnBlamed(q, work[0], g);
      var kids := WithParent(q.unknown, work[0]);
      HashSeqMembers(kids);
      hide Blamed;
      CollectBlamed(Condemn(q, work[0]), work[1..] + HashSeq(kids), g);
    }
  }

  lemma DropBlamed(q: Queue, b: Block, g: Ground)
    requires Blamed(q, g) && b in g.pool && (b.parent in q.knownBad || b.hash in q.knownBad)
    ensures Blamed(Drop(q, b.hash), g)
  {
    hide Grounded;
    var q1 := q.(knownBad := q.knownBad + {b.hash}, ready := q.ready - {b.hash});
    if b.parent in q.knownBad {
      HashesOne(b, [b]);
      MoreBad(g, q.knownBad, [b], q1.knownBad);
    } else {
      assert q1.knownBad == q.knownBad;
    }
    CollectBlamed(q1, [b.hash], g);
  }

  lemma {:induction false} SweepVerifiedBlamed(q: Queue, todo: seq<Block>, g: Ground)
    requires Blamed(q, g) && forall b :: b in todo ==> b in g.pool
    ensures Blamed(SweepVerified(q, todo), g)
    decreases |todo|
  {
    hide Grounded, Drop;
    if todo != [] {
      assert todo[0] in todo;
      if IsBad(q, todo[0]) { DropBlamed(q, todo[0], g); }
      SweepVerifiedBlamed(if IsBad(q, todo[0]) then Drop(q, todo[0].hash) else q.(verified := q.verified + [todo[0]]), todo[1..], g);
    }
  }

  lemma {:induction false} SweepUnverifiedBlamed(q: Queue, todo: seq<Block>, g: Ground)
    requires Blamed(q, g) && forall b :: b in todo ==> b in g.pool
    ensures Blamed(SweepUnverified(q, todo), g)
    decreases |todo|
  {
    hide Grounded, Drop;
    if todo != [] {
      assert todo[0] in todo;
      if IsBad(q, todo[0]) { DropBlamed(q, todo[0], g); }
      SweepUnverifiedBlamed(if IsBad(q, todo[0]) then Drop(q, todo[0].hash) else q.(unverified := q.unverified + [todo[0]]), todo[1..], g);
    }
  }

  lemma {:induction false} SweepVerifyingBlamed(q: Queue, todo: seq<Slot>, g: Ground)
    requires Blamed(q, g) && forall s :: s in todo ==> s.block in g.pool
    ensures Blamed(SweepVerifying(q, todo), g)
    decreases |todo|
  {
    hide Grounded, Drop;
    if todo != [] {
      assert todo[0] in todo;
      if IsBadSlot(q, todo[0]) { DropBlamed(q, todo[0].block, g); }
      SweepVerifyingBlamed(if IsBadSlot(q, todo[0]) then Drop(q, todo[0].block.hash) else q.(verifying := q.verifying + [todo[0]]), todo[1..], g);
    }
  }

  lemma FewerBlamed(q: Queue, q': Queue, g: Ground)
    requires Blamed(q, g) && q'.knownBad == q.knownBad && q'.unknown == q.unknown && WithinPool(q', g.pool)
    ensures Blamed(q', g)
  {
  }

  lemma SweepRoundBlamed(q: Queue, g: Ground)
    requires Blamed(q, g)
    ensures Blamed(SweepRound(q), g)
  {
    hide Grounded, SweepVerified, SweepUnverified, SweepVerifying;
    FewerBlamed(q, q.(verified := []), g);
    SweepVerifiedBlamed(q.(verified := []), q.verified, g);
    var q1 := SweepVerified(q.(verified := []), q.verified);
    FewerBlamed(q1, q1.(unverified := []), g);
    SweepUnverifiedBlamed(q1.(unverified := []), q1.unverified, g);
    var q2 := SweepUnverified(q1.(unverified := []), q1.unverified);
    FewerBlamed(q2, q2.(verifying := []), g);
    SweepVerifyingBlamed(q2.(verifying := []), q2.verifying, g);
  }

  lemma {:induction false} SweepAllBlamed(q: Queue, g: Ground)
    requires Blamed(q, g)
    ensures Blamed(SweepAll(q), g)
    decreases Load(q)
  {
    hide Blamed, SweepRound;
    SweepRoundBlamed(q, g);
    if Load(SweepRound(q)) < Load(q) { SweepAllBlamed(SweepRound(q), g); }
  }

  lemma UpdateBadBlamed(q: Queue, bad: Hash, g: Ground)
    requires Blamed(q, g) && bad in q.knownBad
    ensures Blamed(UpdateBad(q, bad), g)
  {
    hide Blamed, SweepAll;
    CollectBlamed(q, [bad], g);
    SweepAllBlamed(CollectUnknownBad(q, [bad]), g);
  }

  lemma {:induction false} UpdateBadAllBlamed(q: Queue, bads: seq<Hash>, g: Ground)
    requires Blamed(q, g) && g.roots >= (set h | h in bads)
    ensures Blamed(UpdateBadAll(q, bads), g)
    decreases |bads|
  {
    hide UpdateBad, WithinPool, Grounded;
    if bads != [] {
      assert bads[0] in g.roots;
      UpdateBadBlamed(q, bads[0], g);
      UpdateBadAllBlamed(UpdateBad(q, bads[0]), bads[1..], g);
    }
  }

  // ---------- exactly the descendants ----------

  function Pool(q: Queue): set<Block> {
    (set b | b in q.unknown) + set b | b in q.Line()
  }

  function GroundOf(q: Queue): Ground {
    Ground(Pool(q), q.knownBad, set u | u in q.unknown)
  }

  lemma StartsBlamed(q: Queue)
    ensures Blamed(q, GroundOf(q))
  {
    BlocksMembers(q.verifying);
  }

  /** Where nothing has a bad parent but what is bad, everything along a path from a bad root is bad. */
  lemma {:induction false} PathIsBad(pool: set<Block>, roots: set<Hash>, bad: set<Hash>, path: seq<Block>)
    requires IsPath(pool, roots, path) && roots <= bad
    requires forall b :: b in pool && b.parent in bad ==> b.hash in bad
    ensures path[|path| - 1].hash in bad
    decreases |path|
  {
    var last := |path| - 1;
    assert path[last] in pool;
    if last > 0 {
      assert forall b :: b in path[..last] ==> b in path;
      PathIsBad(pool, roots, bad, path[..last]);
    }
  }

  /** collectUnknownBad condemns, of the waiting blocks, exactly the descendants of the known-bad ones. */
  lemma CollectExactly(q: Queue, work: seq<Hash>, u: Block)
    requires WaitingExact(q) && q.knownBad !! q.unknownSet && u in q.unknown
    requires forall h :: h in work ==> h in q.knownBad
    requires forall x :: x in q.unknown && x.parent in q.knownBad ==> x.parent in work
    ensures var q', waiting := CollectUnknownBad(q, work), set x | x in q.unknown;
      && (u.hash in q'.knownBad <==> Descends(waiting, q.knownBad, u.hash))
      && (u.hash in q'.knownBad <==> u !in q'.unknown)
  {
    var q', waiting := CollectUnknownBad(q, work), set x | x in q.unknown;
    var g := Ground(Pool(q), q.knownBad, waiting);
    var small := q.(verified := [], verifying := [], unverified := []);
    CollectLists(q, small, work);
    StartsBlamed(small);
    assert Pool(small) == waiting;
    CollectBlamed(small, work, GroundOf(small));
    CollectKeeps(q, work);
    assert u.hash in q.unknownSet;
    if Descends(waiting, q.knownBad, u.hash) {
      var path: seq<Block> :| IsPath(waiting, q.knownBad, path) && path[|path| - 1].hash == u.hash;
      PathIsBad(waiting, q.knownBad, q'.knownBad, path);
    }
    if u in q'.unknown { assert u.hash in q'.unknownSet; }
  }

  /** The worklist looks at the waiting pool only. */
  lemma {:induction false} CollectLists(q: Queue, r: Queue, work: seq<Hash>)
    requires q.unknown == r.unknown && q.knownBad == r.knownBad
    ensures var q', r' := CollectUnknownBad(q, work), CollectUnknownBad(r, work); q'.unknown == r'.unknown && q'.knownBad == r'.knownBad
    decreases |q.unknown|, |work|
  {
    if work != [] {
      CollectLists(Condemn(q, work[0]), Condemn(r, work[0]), work[1..] + HashSeq(WithParent(q.unknown, work[0])));
    }
  }

  /** updateBad condemns, of the queued and waiting blocks, exactly the descendants of the known-bad ones. */
  lemma UpdateBadExactly(q: Queue, bad: Hash, b: Block)
    requires bad in q.knownBad && NearlySound(q, q.Line(), {bad}) && b in Pool(q)
    ensures b.hash in UpdateBad(q, bad).knownBad <==> Descends(Pool(q), q.knownBad, b.hash)
  {
    hide UpdateBad;
    var q' := UpdateBad(q, bad);
    StartsBlamed(q);
    UpdateBadBlamed(q, bad, GroundOf(q));
    UpdateBadKeeps(q, bad);
    NoBadParentLeft(q, q');
    assert b.hash !in q.knownBad by { assert b.hash in Hashes(q.unknown) || b.hash in Hashes(q.Line()); }
    if Descends(Pool(q), q.knownBad, b.hash) {
      var path: seq<Block> :| IsPath(Pool(q), q.knownBad, path) && path[|path| - 1].hash == b.hash;
      PathIsBad(Pool(q), q.knownBad, q'.knownBad, path);
    }
  }

  lemma NoBadParentLeft(q: Queue, q': Queue)
    requires Swept(q, q.Line(), q', q'.Line()) && NoBadParent(q') && Blamed(q', GroundOf(q))
    ensures forall b :: b in Pool(q) && b.parent in q'.knownBad ==> b.hash in q'.knownBad
  {
    hide Queue.Line, Distinct, Size, Work, Keep, Descends, HasBadParent, Hashes;
    KeepMembers(q.Line(), q'.knownBad);
  }
}
