/**
  The block queue as an object whose methods update its fields in place, each method proved against
  the step of the state machine it stands for. A method runs under the locks its counterpart takes.
 */
module BlockQueueObject {
  import opened Lines
  import opened QueueSpec
  import opened QueueSafety

  lemma Prefix(s: seq<Block>, k: nat)
    requires k < |s|
    ensures s[..k + 1] == s[..k] + [s[k]]
    ensures Size(s[..k + 1]) == Size(s[..k]) + s[k].size && Work(s[..k + 1]) == Work(s[..k]) + s[k].difficulty
    ensures Hashes(s[..k + 1]) == Hashes(s[..k]) + {s[k].hash}
    ensures HashSeq(s[..k + 1]) == HashSeq(s[..k]) + [s[k].hash]
  {
    assert s[..k + 1] == s[..k] + [s[k]];
    TotalsConcat(s[..k], [s[k]]);
    HashesConcat(s[..k], [s[k]]);
    HashesOne(s[k], [s[k]]);
    assert [s[k]][1..] == [];
    HashSeqConcat(s[..k], [s[k]]);
  }

  lemma {:induction false} HashSeqConcat(a: seq<Block>, b: seq<Block>)
    ensures HashSeq(a + b) == HashSeq(a) + HashSeq(b)
  {
    if a == [] {
      assert a + b == b;
    } else {
      assert (a + b)[1..] == a[1..] + b;
      HashSeqConcat(a[1..], b);
    }
  }

  lemma NothingYet()
    ensures Size([]) == 0 && Work([]) == 0 && Hashes([]) == {} && HashSeq([]) == []
  {
  }

  // ---------- loops, block by block ----------

  function Readied(q: Queue, b: Block): Queue {
    q.(unverified := q.unverified + [b], knownSize := q.knownSize + b.size, knownCount := q.knownCount + 1,
       ready := q.ready + {b.hash})
  }

  function Left(q: Queue, b: Block): Queue {
    q.(unknownSize := q.unknownSize - b.size, unknownCount := q.unknownCount - 1, unknownSet := q.unknownSet - {b.hash})
  }

  function PromotedOne(q: Queue, b: Block): Queue {
    Left(Readied(q, b), b)
  }

  function PromotedBy(q: Queue, kids: seq<Block>): Queue {
    q.(unverified := q.unverified + kids, knownSize := q.knownSize + Size(kids), knownCount := q.knownCount + |kids|,
       unknownSize := q.unknownSize - Size(kids), unknownCount := q.unknownCount - |kids|,
       unknownSet := q.unknownSet - Hashes(kids), ready := q.ready + Hashes(kids))
  }

  lemma PromotedByNone(q: Queue)
    ensures PromotedBy(q, []) == q
  {
    NothingYet();
  }

  lemma PromotedByStep(q: Queue, kids: seq<Block>, k: nat)
    requires k < |kids|
    ensures PromotedBy(q, kids[..k + 1]) == PromotedOne(PromotedBy(q, kids[..k]), kids[k])
  {
    hide Size, Hashes;
    Prefix(kids, k);
  }

  lemma PromotedByAll(q: Queue, h: Hash)
    ensures PromotedBy(q, WithParent(q.unknown, h)).unknown == q.unknown
    ensures Promote(q, h) == PromotedBy(q, WithParent(q.unknown, h)).(unknown := WithoutParent(q.unknown, h))
  {
  }

  function CondemnedOne(q: Queue, b: Block): Queue {
    Left(q, b).(knownBad := q.knownBad + {b.hash})
  }

  function CondemnedBy(q: Queue, kids: seq<Block>): Queue {
    q.(unknownSize := q.unknownSize - Size(kids), unknownCount := q.unknownCount - |kids|,
       unknownSet := q.unknownSet - Hashes(kids), knownBad := q.knownBad + Hashes(kids))
  }

  lemma CondemnedByNone(q: Queue)
    ensures CondemnedBy(q, []) == q
  {
    NothingYet();
  }

  lemma CondemnedByStep(q: Queue, kids: seq<Block>, k: nat)
    requires k < |kids|
    ensures CondemnedBy(q, kids[..k + 1]) == CondemnedOne(CondemnedBy(q, kids[..k]), kids[k])
  {
    hide Size, Hashes;
    Prefix(kids, k);
  }

  lemma CondemnedByAll(q: Queue, h: Hash)
    ensures CondemnedBy(q, WithParent(q.unknown, h)).unknown == q.unknown
    ensures Condemn(q, h) == CondemnedBy(q, WithParent(q.unknown, h)).(unknown := WithoutParent(q.unknown, h))
  {
  }

  function DrainedOne(q: Queue, b: Block): Queue {
    q.(draining := q.draining + {b.hash}, drainingDifficulty := q.drainingDifficulty + b.difficulty,
       ready := q.ready - {b.hash}, knownSize := q.knownSize - b.size, knownCount := q.knownCount - 1)
  }

  function DrainedBy(q: Queue, out: seq<Block>): Queue {
    q.(draining := q.draining + Hashes(out), drainingDifficulty := q.drainingDifficulty + Work(out),
       ready := q.ready - Hashes(out), knownSize := q.knownSize - Size(out), knownCount := q.knownCount - |out|)
  }

  lemma DrainedByNone(q: Queue)
    ensures DrainedBy(q, []) == q
  {
    NothingYet();
  }

  lemma DrainedByStep(q: Queue, out: seq<Block>, k: nat)
    requires k < |out|
    ensures DrainedBy(q, out[..k + 1]) == DrainedOne(DrainedBy(q, out[..k]), out[k])
  {
    hide Size, Hashes, Work;
    Prefix(out, k);
  }

  lemma DrainedByAll(q: Queue, q0: Queue, max: nat, out: seq<Block>)
    requires q.draining == {} && out == Batch(q, max)
    requires q0 == q.(verified := q.verified[|out|..], drainingDifficulty := 0)
    ensures DrainedBy(q0, out) == Drain(q, max)
  {
    hide Size, Hashes, Work;
  }

  lemma InsertLater(s: seq<Block>, i: nat, b: Block)
    requires i < |s| && Key(b) >= Key(s[i])
    ensures s[..i] + InsertByTime(s[i..], b) == s[..i + 1] + InsertByTime(s[i + 1..], b)
  {
    assert s[i..][1..] == s[i + 1..];
    assert s[..i + 1] == s[..i] + [s[i]];
  }

  lemma InsertHere(s: seq<Block>, b: Block)
    requires s == [] || Key(b) < Key(s[0])
    ensures InsertByTime(s, b) == [b] + s
  {
  }

  lemma DueStep(s: seq<Block>, i: nat, now: nat)
    requires i < |s| && Key(s[i]) <= now
    ensures DueBy(s[i..], now) == [s[i]] + DueBy(s[i + 1..], now)
  {
    assert s[i..][1..] == s[i + 1..];
  }

  lemma DuePush(s: seq<Block>, i: nat, now: nat)
    requires i < |s| && Key(s[i]) <= now && DueBy(s, now) == s[..i] + DueBy(s[i..], now)
    ensures DueBy(s, now) == s[..i + 1] + DueBy(s[i + 1..], now)
  {
    hide DueBy, Key;
    DueStep(s, i, now);
    var rest := DueBy(s[i + 1..], now);
    assert s[..i + 1] == s[..i] + [s[i]];
    assert s[..i] + ([s[i]] + rest) == s[..i] + [s[i]] + rest;
  }

  lemma DueEnd(s: seq<Block>, i: nat, now: nat)
    requires i <= |s| && (i < |s| ==> Key(s[i]) > now)
    ensures DueBy(s[i..], now) == []
  {
  }

  class BlockQueue {
    var ready: set<Hash>
    var draining: set<Hash>
    var unknownSet: set<Hash>
    var knownBad: set<Hash>
    var unknown: seq<Block>
    var future: seq<Block>
    var verified: seq<Block>
    var verifying: seq<Slot>
    var unverified: seq<Block>
    var unknownCount: int
    var unknownSize: int
    var knownCount: int
    var knownSize: int
    var difficulty: int
    var drainingDifficulty: int

    ghost function View(): Queue
      reads this
    {
      Queue(ready, draining, unknownSet, knownBad, unknown, future, verified, verifying, unverified,
            unknownCount, unknownSize, knownCount, knownSize, difficulty, drainingDifficulty)
    }

    constructor ()
      ensures View() == EMPTY_QUEUE
    {
      ready, draining, unknownSet, knownBad := {}, {}, {}, {};
      unknown, future, verified, verifying, unverified := [], [], [], [], [];
      unknownCount, unknownSize, knownCount, knownSize := 0, 0, 0, 0;
      difficulty, drainingDifficulty := 0, 0;
    }

    /** Moves the waiting children of `h` to the unverified list. */
    method PromoteChildren(h: Hash) returns (promoted: seq<Hash>)
      modifies this
      ensures View() == Promote(old(View()), h)
      ensures promoted == HashSeq(WithParent(old(unknown), h))
    {
      hide Size, Work, Hashes, HashSeq, WithParent, WithoutParent, PromotedBy, PromotedOne;
      ghost var start := View();
      NothingYet();
      var kids := WithParent(unknown, h);
      PromotedByNone(start);
      promoted := [];
      var k := 0;
      while k < |kids|
        invariant 0 <= k <= |kids| && promoted == HashSeq(kids[..k]) && View() == PromotedBy(start, kids[..k])
      {
        Prefix(kids, k);
        PromotedByStep(start, kids, k);
        PromoteOne(kids[k]);
        promoted := promoted + [kids[k].hash];
        k := k + 1;
      }
      assert kids[..k] == kids;
      PromotedByAll(start, h);
      unknown := WithoutParent(unknown, h);
    }

    method PromoteOne(b: Block)
      modifies this`unverified, this`knownSize, this`knownCount, this`unknownSize, this`unknownCount, this`unknownSet, this`ready
      ensures View() == PromotedOne(old(View()), b)
    {
      EnterReady(b);
      LeaveWaiting(b);
    }

    method EnterReady(b: Block)
      modifies this`unverified, this`knownSize, this`knownCount, this`ready
      ensures View() == Readied(old(View()), b)
    {
      unverified := unverified + [b];
      knownSize, knownCount := knownSize + b.size, knownCount + 1;
      ready := ready + {b.hash};
    }

    method LeaveWaiting(b: Block)
      modifies this`unknownSize, this`unknownCount, this`unknownSet
      ensures View() == Left(old(View()), b)
    {
      unknownSize, unknownCount := unknownSize - b.size, unknownCount - 1;
      unknownSet := unknownSet - {b.hash};
    }

    /** Promotes everything that was waiting, directly or not, for `good`. */
    method NoteReadyLocked(good: Hash)
      modifies this
      ensures View() == NoteReady(old(View()), [good])
    {
      hide WithParent, WithoutParent, HashSeq, Size, Hashes;
      var goodQueue := [good];
      while goodQueue != []
        invariant NoteReady(View(), goodQueue) == NoteReady(old(View()), [good])
        decreases |unknown|, |goodQueue|
      {
        var promoted := PromoteChildren(goodQueue[0]);
        goodQueue := goodQueue[1..] + promoted;
      }
    }

    /** Moves the waiting children of `h` to the known-bad set. */
    method CondemnChildren(h: Hash) returns (condemned: seq<Hash>)
      modifies this
      ensures View() == Condemn(old(View()), h)
      ensures condemned == HashSeq(WithParent(old(unknown), h))
    {
      hide Size, Work, Hashes, HashSeq, WithParent, WithoutParent, CondemnedBy, CondemnedOne;
      ghost var start := View();
      NothingYet();
      var kids := WithParent(unknown, h);
      CondemnedByNone(start);
      condemned := [];
      var k := 0;
      while k < |kids|
        invariant 0 <= k <= |kids| && condemned == HashSeq(kids[..k]) && View() == CondemnedBy(start, kids[..k])
      {
        Prefix(kids, k);
        CondemnedByStep(start, kids, k);
        CondemnOne(kids[k]);
        condemned := condemned + [kids[k].hash];
        k := k + 1;
      }
      assert kids[..k] == kids;
      CondemnedByAll(start, h);
      unknown := WithoutParent(unknown, h);
    }

    method CondemnOne(b: Block)
      modifies this`unknownSize, this`unknownCount, this`unknownSet, this`knownBad
      ensures View() == CondemnedOne(old(View()), b)
    {
      LeaveWaiting(b);
      knownBad := knownBad + {b.hash};
    }

    /** Condemns everything that was waiting, directly or not, for `bad`. */
    method CollectUnknownBadLocked(bad: Hash)
      modifies this
      ensures View() == CollectUnknownBad(old(View()), [bad])
    {
      hide WithParent, WithoutParent, HashSeq, Size, Hashes;
      var badQueue := [bad];
      while badQueue != []
        invariant CollectUnknownBad(View(), badQueue) == CollectUnknownBad(old(View()), [bad])
        decreases |unknown|, |badQueue|
      {
        var condemned := CondemnChildren(badQueue[0]);
        badQueue := badQueue[1..] + condemned;
      }
    }

    method DropLocked(h: Hash)
      modifies this
      ensures View() == Drop(old(View()), h)
    {
      knownBad := knownBad + {h};
      ready := ready - {h};
      CollectUnknownBadLocked(h);
    }

    /** The scan of the verified list; `found` says whether it dropped a block. */
    method ScanVerified() returns (found: bool)
      modifies this
      ensures View() == SweepVerified(old(View()).(verified := []), old(verified))
      ensures found ==> Load(View()) < Load(old(View()))
      ensures !found ==> Load(View()) == Load(old(View()))
    {
      found := false;
      var todo := verified;
      verified := [];
      ghost var q0 := View();
      var k := 0;
      while k < |todo|
        invariant 0 <= k <= |todo|
        invariant SweepVerified(View(), todo[k..]) == SweepVerified(q0, todo)
        invariant verifying == q0.verifying && unverified == q0.unverified
        invariant if found then |verified| < k else |verified| == k
      {
        var b := todo[k];
        assert todo[k..][0] == b && todo[k..][1..] == todo[k + 1..];
        if b.parent in knownBad || b.hash in knownBad {
          DropFrame(View(), b.hash);
          DropLocked(b.hash);
          found := true;
        } else {
          verified := verified + [b];
        }
        k := k + 1;
      }
    }

    method ScanUnverified() returns (found: bool)
      modifies this
      ensures View() == SweepUnverified(old(View()).(unverified := []), old(unverified))
      ensures found ==> Load(View()) < Load(old(View()))
      ensures !found ==> Load(View()) == Load(old(View()))
    {
      found := false;
      var todo := unverified;
      unverified := [];
      ghost var q0 := View();
      var k := 0;
      while k < |todo|
        invariant 0 <= k <= |todo|
        invariant SweepUnverified(View(), todo[k..]) == SweepUnverified(q0, todo)
        invariant verifying == q0.verifying && verified == q0.verified
        invariant if found then |unverified| < k else |unverified| == k
      {
        var b := todo[k];
        assert todo[k..][0] == b && todo[k..][1..] == todo[k + 1..];
        if b.parent in knownBad || b.hash in knownBad {
          DropFrame(View(), b.hash);
          DropLocked(b.hash);
          found := true;
        } else {
          unverified := unverified + [b];
        }
        k := k + 1;
      }
    }

    method ScanVerifying() returns (found: bool)
      modifies this
      ensures View() == SweepVerifying(old(View()).(verifying := []), old(verifying))
      ensures found ==> Load(View()) < Load(old(View()))
      ensures !found ==> Load(View()) == Load(old(View()))
    {
      found := false;
      var todo := verifying;
      verifying := [];
      ghost var q0 := View();
      var k := 0;
      while k < |todo|
        invariant 0 <= k <= |todo|
        invariant SweepVerifying(View(), todo[k..]) == SweepVerifying(q0, todo)
        invariant verified == q0.verified && unverified == q0.unverified
        invariant if found then |verifying| < k else |verifying| == k
      {
        var s := todo[k];
        assert todo[k..][0] == s && todo[k..][1..] == todo[k + 1..];
        if s.block.parent in knownBad || s.TagIn(knownBad) {
          DropFrame(View(), s.block.hash);
          DropLocked(s.block.hash);
          found := true;
        } else {
          verifying := verifying + [s];
        }
        k := k + 1;
      }
    }

    /** Sweeps the three lists until a round finds nothing bad. */
    method UpdateBadLocked(bad: Hash)
      modifies this
      ensures View() == UpdateBad(old(View()), bad)
    {
      CollectUnknownBadLocked(bad);
      ghost var q0 := View();
      var moreBad := true;
      while moreBad
        invariant if moreBad then SweepAll(View()) == SweepAll(q0) else View() == SweepAll(q0)
        decreases if moreBad then 1 + Load(View()) else 0
      {
        ghost var start := View();
        var b1 := ScanVerified();
        var b2 := ScanUnverified();
        var b3 := ScanVerifying();
        assert View() == SweepRound(start);
        moreBad := b1 || b2 || b3;
      }
    }

    method DrainVerifiedLocked()
      modifies this
      ensures View() == DrainVerified(old(View()))
    {
      while verifying != [] && verifying[0].Done?
        invariant DrainVerified(View()) == DrainVerified(old(View()))
        decreases |verifying|
      {
        var b := verifying[0].block;
        if b.parent in knownBad {
          ready := ready - {b.hash};
          knownBad := knownBad + {b.hash};
        } else {
          verified := verified + [b];
        }
        verifying := verifying[1..];
      }
    }

    /** A verifier thread takes the next block to verify. */
    method TakeWork() returns (work: Block)
      requires unverified != []
      modifies this
      ensures View() == Take(old(View())) && work == old(unverified)[0]
    {
      work := unverified[0];
      unverified := unverified[1..];
      verifying := verifying + [Pending(work)];
    }

    method FindEntry(h: Hash) returns (i: nat)
      ensures i == FindSlot(verifying, h)
    {
      i := 0;
      while i < |verifying| && !verifying[i].Tagged(h)
        invariant 0 <= i <= |verifying|
        invariant FindSlot(verifying, h) == i + FindSlot(verifying[i..], h)
      {
        assert verifying[i..][0] == verifying[i] && verifying[i..][1..] == verifying[i + 1..];
        i := i + 1;
      }
    }

    method WorkIsBad(work: Block)
      modifies this
      ensures View() == FinishBad(old(View()), work)
    {
      hide FindSlot, DrainVerified;
      ready := ready - {work.hash};
      knownBad := knownBad + {work.hash};
      var i := FindEntry(work.hash);
      if i < |verifying| {
        verifying := verifying[..i] + verifying[i + 1..];
      }
      DrainVerifiedLocked();
    }

    /** `next` says that the block was first in line, so that the ready signal is raised. */
    method WorkIsGood(work: Block) returns (next: bool)
      modifies this
      ensures View() == FinishGood(old(View()), work)
      ensures next <==> old(verifying) != [] && old(verifying)[0].Tagged(work.hash)
    {
      if verifying != [] && verifying[0].Tagged(work.hash) {
        next := true;
        verifying := verifying[1..];
        if work.parent in knownBad {
          ready := ready - {work.hash};
          knownBad := knownBad + {work.hash};
        } else {
          verified := verified + [work];
        }
        DrainVerifiedLocked();
      } else {
        next := false;
        var i := FindEntry(work.hash);
        if i < |verifying| {
          verifying := verifying[i := Done(work)];
        }
      }
    }

    method ImportBlock(a: Arrival) returns (result: ImportResult)
      modifies this
      ensures View() == Import(old(View()), a)
      ensures result == Outcome(old(View()), a)
    {
      hide UpdateBad, NoteReady, Postponed, Parked, Enqueue;
      var b := a.block;
      if b.hash in ready || b.hash in draining || b.hash in unknownSet || b.hash in knownBad {
        return AlreadyKnown;
      }
      if !a.wellFormed {
        return Malformed;
      }
      if b.hash in a.chain {
        return AlreadyInChain;
      }
      if b.time > a.now && !a.ours {
        var parentUnknown := b.parent !in ready && b.parent !in draining && b.parent !in a.chain;
        Postpone(b);
        return if parentUnknown then FutureTimeUnknown else FutureTimeKnown;
      }
      if b.parent in knownBad {
        knownBad := knownBad + {b.hash};
        UpdateBadLocked(b.hash);
        return BadChain;
      }
      if b.parent !in ready && b.parent !in draining && b.parent !in a.chain {
        Park(b);
        return UnknownParent;
      }
      EnqueueBlock(b);
      NoteReadyLocked(b.hash);
      return Success;
    }

    /** Its time has not come. */
    method Postpone(b: Block)
      modifies this
      ensures View() == Postponed(old(View()), b)
    {
      hide InsertByTime;
      InsertFuture(b);
      unknownSize := unknownSize + b.size;
      unknownCount := unknownCount + 1;
      difficulty := difficulty + b.difficulty;
    }

    /** Its parent is not known yet. */
    method Park(b: Block)
      modifies this`unknown, this`unknownSet, this`unknownSize, this`difficulty, this`unknownCount
      ensures View() == Parked(old(View()), b)
    {
      unknown := unknown + [b];
      unknownSet := unknownSet + {b.hash};
      unknownSize := unknownSize + b.size;
      difficulty := difficulty + b.difficulty;
      unknownCount := unknownCount + 1;
    }

    method EnqueueBlock(b: Block)
      modifies this`unverified, this`ready, this`knownSize, this`difficulty, this`knownCount
      ensures View() == Enqueue(old(View()), b)
    {
      EnterReady(b);
      difficulty := difficulty + b.difficulty;
    }

    method InsertFuture(b: Block)
      modifies this`future
      ensures View() == old(View()).(future := InsertByTime(old(future), b))
    {
      hide Key, InsertByTime;
      var i := 0;
      while i < |future| && Key(b) >= Key(future[i])
        invariant 0 <= i <= |future| && future == old(future)
        invariant InsertByTime(future, b) == future[..i] + InsertByTime(future[i..], b)
      {
        InsertLater(future, i, b);
        i := i + 1;
      }
      InsertHere(future[i..], b);
      future := future[..i] + ([b] + future[i..]);
    }

    /** The blocks whose time has come leave the future pool; the caller then imports them again. */
    method TickLocked(now: nat) returns (todo: seq<Block>)
      modifies this`future, this`unknownSize, this`unknownCount
      ensures View() == Tick(old(View()), now) && todo == DueNow(old(View()), now)
    {
      hide Size, DueBy, Key;
      todo := [];
      if future == [] || now < Key(future[0]) {
        NothingYet();
        return;
      }
      var size;
      todo, size := TakeDue(future, now % 0x1_0000_0000);
      unknownSize, unknownCount := unknownSize - size, unknownCount - |todo|;
      future := future[|todo|..];
    }

    /** At most `max` verified blocks, in order; nothing while an earlier batch is still being imported. */
    method DrainBlocks(max: nat) returns (out: seq<Block>)
      modifies this
      ensures View() == Drain(old(View()), max) && out == Batch(old(View()), max)
    {
      hide Size, Work, Hashes, HashSeq, DrainedBy, DrainedOne;
      ghost var start := View();
      out := [];
      if draining == {} {
        drainingDifficulty := 0;
        var n := if max <= |verified| then max else |verified|;
        out := verified[..n];
        verified := verified[n..];
        ghost var q0 := View();
        DrainedByNone(q0);
        var k := 0;
        while k < |out|
          invariant 0 <= k <= |out| && View() == DrainedBy(q0, out[..k])
        {
          DrainedByStep(q0, out, k);
          DrainOne(out[k]);
          k := k + 1;
        }
        assert out[..k] == out;
        DrainedByAll(start, q0, max, out);
      }
    }

    method DrainOne(b: Block)
      modifies this`draining, this`drainingDifficulty, this`ready, this`knownSize, this`knownCount
      ensures View() == DrainedOne(old(View()), b)
    {
      draining := draining + {b.hash};
      drainingDifficulty := drainingDifficulty + b.difficulty;
      ready := ready - {b.hash};
      knownSize := knownSize - b.size;
      knownCount := knownCount - 1;
    }

    method DrainDone(bads: seq<Hash>) returns (more: bool)
      modifies this
      ensures View() == DoneDrain(old(View()), bads) && (more <==> ready != {})
    {
      hide UpdateBad;
      draining := {};
      difficulty := difficulty - drainingDifficulty;
      drainingDifficulty := 0;
      knownBad := knownBad + set h | h in bads;
      ghost var q0 := View();
      var k := 0;
      while k < |bads|
        invariant 0 <= k <= |bads|
        invariant UpdateBadAll(View(), bads[k..]) == UpdateBadAll(q0, bads)
      {
        assert bads[k..][0] == bads[k] && bads[k..][1..] == bads[k + 1..];
        UpdateBadLocked(bads[k]);
        k := k + 1;
      }
      more := ready != {};
    }
  }

  /** The loop over the entries that are due, with their sizes. */
  method TakeDue(s: seq<Block>, now: nat) returns (todo: seq<Block>, size: nat)
    ensures todo == DueBy(s, now) && size == Size(todo)
  {
    hide Size, Work, Hashes, HashSeq, DueBy, Key;
    NothingYet();
    todo, size := [], 0;
    assert s[0..] == s && s[..0] == [];
    var i := 0;
    while i < |s| && Key(s[i]) <= now
      invariant 0 <= i <= |s| && todo == s[..i] && size == Size(todo)
      invariant DueBy(s, now) == s[..i] + DueBy(s[i..], now)
    {
      DuePush(s, i, now);
      Prefix(s, i);
      todo, size := todo + [s[i]], size + s[i].size;
      i := i + 1;
    }
    DueEnd(s, i, now);
    assert todo + [] == todo;
  }

  lemma DropFrame(q: Queue, h: Hash)
    ensures var q' := Drop(q, h);
      q'.verified == q.verified && q'.verifying == q.verifying && q'.unverified == q.unverified
  {
    CollectFrame(q.(knownBad := q.knownBad + {h}, ready := q.ready - {h}), [h]);
  }
}
