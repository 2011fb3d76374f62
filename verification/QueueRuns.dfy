/**
  Runs of the block queue: any interleaving of imports, verifier threads, drains, ticks and noteReady
  calls. The queue is observed together with what the threads and the chain hold.
 */
module QueueRuns {
  import opened Lines
  import opened QueueSpec
  import opened QueueSafety

  /**
    The queue, the jobs verifier threads are working on, every block that was ever made ready (in order),
    every block that was ever drained (in order), and every hash that the chain was seen to know when a
    block was queued on top of it.
   */
  datatype System = System(q: Queue, jobs: set<Block>, log: seq<Block>, drained: seq<Block>, chainSeen: set<Hash>)

  const INITIAL := System(EMPTY_QUEUE, {}, [], [], {})

  datatype Event =
    | Arrive(arrival: Arrival)
    | TakeJob
    | JobGood(work: Block)
    | JobBad(work: Block)
    | HandOut(max: nat)
    | HandOutDone(bads: seq<Hash>)
    | TimePasses(now: nat)
    | ChainHas(hash: Hash)

  /**
    The oracle of verification. `verifies` is the verdict of the out-of-order checks on a block, `parent`
    the parent its header names, and `sane` says that the block and all its ancestors down to the
    genesis block verify.
   */
  datatype Oracle = Oracle(verifies: Hash -> bool, sane: Hash -> bool, parent: Hash -> Hash, genesis: Hash)

  ghost predicate Coherent(o: Oracle) {
    && (forall h :: o.sane(h) ==> o.verifies(h) && (h == o.genesis || o.sane(o.parent(h))))
    && (forall h :: o.verifies(h) && o.sane(o.parent(h)) ==> o.sane(h))
  }

  /** A header hash determines the parent it names, and the genesis block is never well formed for import. */
  predicate Genuine(b: Block, o: Oracle) {
    b.parent == o.parent(b.hash) && b.hash != o.genesis
  }

  /**
    A thread finishes only a job it took, with the verdict the block deserves; the chain holds only sane
    blocks; doneDrain reports only blocks of the last drain. Nothing is assumed about how the set of
    blocks the chain knows changes from one call to the next.
   */
  predicate Enabled(s: System, e: Event, o: Oracle) {
    match e
    case Arrive(a) => (a.wellFormed ==> Genuine(a.block, o)) && forall h :: h in a.chain ==> o.sane(h)
    case TakeJob => s.q.unverified != []
    case JobGood(work) => work in s.jobs && o.verifies(work.hash)
    case JobBad(work) => work in s.jobs && !o.verifies(work.hash)
    case HandOutDone(bads) => forall h :: h in bads ==> h in s.q.draining
    case ChainHas(h) => o.sane(h)
    case _ => true
  }

  /** What a step appended to the unverified list. */
  function Added(q: Queue, q': Queue): seq<Block> {
    if |q.unverified| <= |q'.unverified| then q'.unverified[|q.unverified|..] else []
  }

  function Step(s: System, e: Event): System
    requires e.TakeJob? ==> s.q.unverified != []
  {
    match e
    case Arrive(a) =>
      var q' := Import(s.q, a);
      if Outcome(s.q, a).Success? then
        s.(q := q', log := s.log + Added(s.q, q'), chainSeen := s.chainSeen + ({a.block.parent} * a.chain))
      else s.(q := q')
    case TakeJob => s.(q := Take(s.q), jobs := s.jobs + {s.q.unverified[0]})
    case JobGood(work) => s.(q := FinishGood(s.q, work), jobs := s.jobs - {work})
    case JobBad(work) => s.(q := FinishBad(s.q, work), jobs := s.jobs - {work})
    case HandOut(max) => s.(q := Drain(s.q, max), drained := s.drained + Batch(s.q, max))
    case HandOutDone(bads) => s.(q := DoneDrain(s.q, bads))
    case TimePasses(now) => s.(q := Tick(s.q, now))
    case ChainHas(h) =>
      var q' := NoteReady(s.q, [h]);
      s.(q := q', log := s.log + Added(s.q, q'), chainSeen := s.chainSeen + {h})
  }

  // ---------- the invariant ----------

  predicate Separate(q: Queue) {
    && q.draining !! q.ready && q.draining !! q.unknownSet && q.draining !! q.knownBad
    && (forall u :: u in q.unknown ==> u.parent !in q.draining)
  }

  predicate Clean(q: Queue) {
    forall b :: b in q.verified ==> b.parent !in q.knownBad
  }

  predicate JobsTracked(q: Queue, jobs: set<Block>) {
    && (forall j :: j in jobs ==> j.hash in q.knownBad || Pending(j) in q.verifying)
    && (forall s :: s in q.verifying && s.Pending? ==> s.block in jobs)
  }

  predicate Totals(q: Queue) {
    && q.knownCount >= |q.Line()|
    && q.knownSize >= Size(q.Line())
    && q.drainingDifficulty >= 0
    && q.difficulty >= Work(q.Line()) + Work(q.unknown) + Work(q.future) + q.drainingDifficulty
  }

  predicate Timed(s: seq<Block>) {
    forall i, j :: 0 <= i < j < |s| ==> Key(s[i]) <= Key(s[j])
  }

  /** Hashes that account for a parent that is no longer in the line. */
  function Base(s: System): set<Hash> {
    Hashes(s.drained) + s.chainSeen + s.q.knownBad
  }

  predicate InOrder(s: System) {
    && Ordered(s.q.Line(), Base(s))
    && Ordered(s.drained, s.chainSeen)
    && s.q.draining <= Hashes(s.drained)
    && Subsequence(s.drained + s.q.Line(), s.log)
  }

  /**
    Whatever was verified, drained or found in the chain is sane, and a queued block whose parent is
    already known bad is not.
   */
  predicate Healthy(s: System, o: Oracle) {
    && (forall h :: h in s.chainSeen ==> o.sane(h))
    && (forall b :: b in s.drained ==> o.sane(b.hash))
    && (forall b :: b in s.q.verified ==> o.sane(b.hash))
    && (forall x :: x in s.q.verifying && x.Done? ==> o.verifies(x.block.hash))
    && (forall b :: b in s.q.Line() ==> Genuine(b, o))
    && (forall b :: b in s.q.unknown ==> Genuine(b, o))
    && (forall b :: b in s.q.Line() && b.parent in s.q.knownBad ==> !o.sane(b.hash))
  }

  predicate Inv(s: System, o: Oracle) {
    && Sound(s.q, s.q.Line())
    && Separate(s.q)
    && Clean(s.q)
    && JobsTracked(s.q, s.jobs)
    && Totals(s.q)
    && Timed(s.q.future)
    && InOrder(s)
    && Healthy(s, o)
  }

  // ---------- steps that only prune ----------

  lemma PruneOrder(s: System, q': Queue)
    requires Ordered(s.q.Line(), Base(s)) && Subsequence(s.drained + s.q.Line(), s.log)
    requires q'.Line() == Keep(s.q.Line(), q'.knownBad) && s.q.knownBad <= q'.knownBad
    ensures Ordered(q'.Line(), Base(s.(q := q')))
    ensures Subsequence(s.drained + q'.Line(), s.log)
  {
    hide Ordered, Subsequence, Keep;
    var line, base' := s.q.Line(), Base(s.(q := q'));
    OrderedWeaken(line, Base(s), base');
    KeepOrdered(line, q'.knownBad, base');
    KeepSubsequence(line, q'.knownBad);
    SubsequenceRefl(s.drained);
    SubsequenceConcat(s.drained, s.drained, q'.Line(), line);
    SubsequenceTrans(s.drained + q'.Line(), s.drained + line, s.log);
  }

  lemma PruneTotals(q: Queue, q': Queue)
    requires Totals(q) && Swept(q, q.Line(), q', q'.Line())
    ensures Totals(q')
  {
    hide Size, Work, Keep, Distinct;
    KeepTotals(q.Line(), q'.knownBad);
  }

  /** A step that sweeps the queue and keeps every live job keeps the invariant. */
  lemma PruneKeeps(s: System, q': Queue, jobs': set<Block>, o: Oracle)
    requires Separate(s.q) && Totals(s.q) && Timed(s.q.future) && InOrder(s)
    requires Swept(s.q, s.q.Line(), q', q'.Line())
    requires Clean(q') && JobsTracked(q', jobs') && Healthy(s.(q := q'), o)
    ensures Inv(s.(q := q', jobs := jobs'), o)
  {
    hide Ordered, Subsequence, Keep, Size, Work, Distinct, Hashes;
    PruneOrder(s, q');
    PruneTotals(s.q, q');
  }

  // ---------- verifier steps ----------

  /** Noting one queued block bad, without a sweep: nothing waits for a queued block. */
  lemma ForgetKeeps(q: Queue, a: seq<Block>, x: Block, b: seq<Block>)
    requires Sound(q, a + [x] + b)
    ensures Sound(q.(ready := q.ready - {x.hash}, knownBad := q.knownBad + {x.hash}), a + b)
    ensures Keep(a + [x] + b, q.knownBad + {x.hash}) == a + b
    ensures x.hash in q.ready
  {
    hide Distinct, Keep, Size, Work;
    Around(a, x, b);
    AroundKeep(a, x, b, q.knownBad + {x.hash});
  }

  /** A block that is not sane becomes known bad: no sane block loses a good standing by it. */
  lemma StayHealthy(s: System, q': Queue, x: Hash, o: Oracle)
    requires Healthy(s, o) && Coherent(o) && !o.sane(x) && Clean(s.q)
    requires q'.knownBad == s.q.knownBad + {x} && q'.verified == s.q.verified && q'.unknown == s.q.unknown
    requires forall b :: b in q'.Line() ==> b in s.q.Line()
    requires forall t :: t in q'.verifying ==> t in s.q.verifying
    requires forall b :: b in q'.verified ==> b in q'.Line()
    ensures Healthy(s.(q := q'), o) && Clean(q')
  {
    hide Queue.Line;
    forall b | b in q'.Line() && b.parent in q'.knownBad ensures !o.sane(b.hash) {
      assert Genuine(b, o);
    }
    forall b | b in q'.verified ensures b.parent !in q'.knownBad {
      assert b in q'.Line();
    }
  }

  /** The front of the line, once verified and with a parent that is not bad, is sane. */
  lemma FrontIsSane(s: System, b: Block, rest: seq<Block>, o: Oracle)
    requires Healthy(s, o) && Coherent(o) && Ordered(s.q.Line(), Base(s))
    requires s.q.Line() == s.q.verified + [b] + rest
    requires b.parent !in s.q.knownBad && o.verifies(b.hash)
    ensures o.sane(b.hash)
  {
    OrderedConcat(s.q.verified + [b], rest, Base(s));
    OrderedConcat(s.q.verified, [b], Base(s));
    assert b in s.q.Line();
  }

  /** A step that moves blocks between the three lists without changing the line. */
  lemma SameLine(s: System, q1: Queue, jobs': set<Block>, o: Oracle)
    requires Inv(s, o)
    requires q1 == s.q.(verified := q1.verified, verifying := q1.verifying, unverified := q1.unverified)
    requires q1.Line() == s.q.Line()
    requires Clean(q1) && JobsTracked(q1, jobs')
    requires forall b :: b in q1.verified ==> o.sane(b.hash)
    requires forall x :: x in q1.verifying && x.Done? ==> o.verifies(x.block.hash)
    ensures Inv(s.(q := q1, jobs := jobs'), o)
  {
    hide Distinct, Keep, Size, Work, Ordered, Subsequence, Hashes, Queue.Line;
  }

  /** A step that takes one block out of the line because it is not sane. */
  lemma OneRemoved(s: System, before: seq<Block>, x: Block, after: seq<Block>, q1: Queue, jobs': set<Block>, o: Oracle)
    requires Inv(s, o) && Coherent(o) && !o.sane(x.hash)
    requires s.q.Line() == before + [x] + after && q1.Line() == before + after
    requires q1 == s.q.(ready := s.q.ready - {x.hash}, knownBad := s.q.knownBad + {x.hash}, verifying := q1.verifying)
    requires forall t :: t in q1.verifying ==> t in s.q.verifying
    requires JobsTracked(q1, jobs')
    ensures Inv(s.(q := q1, jobs := jobs'), o)
  {
    hide Distinct, Keep, Size, Work, Ordered, Subsequence, Hashes, Queue.Line, JobsTracked;
    ForgetKeeps(s.q, before, x, after);
    assert forall b :: b in before + after ==> b in before + [x] + after;
    Unsettle(s, q1, x.hash, o);
    PruneKeeps(s, q1, jobs', o);
  }

  lemma Unsettle(s: System, q1: Queue, x: Hash, o: Oracle)
    requires Inv(s, o) && Coherent(o) && !o.sane(x)
    requires q1.knownBad == s.q.knownBad + {x} && q1.verified == s.q.verified && q1.unknown == s.q.unknown
    requires forall b :: b in q1.Line() ==> b in s.q.Line()
    requires forall t :: t in q1.verifying ==> t in s.q.verifying
    ensures Healthy(s.(q := q1), o) && Clean(q1)
  {
    hide Sound, Separate, JobsTracked, Totals, Timed, InOrder, Queue.Line;
    forall b | b in q1.verified ensures b in q1.Line() {
      VerifiedInLine(q1, b);
    }
    StayHealthy(s, q1, x, o);
  }

  lemma VerifiedInLine(q: Queue, b: Block)
    requires b in q.verified
    ensures b in q.Line()
  {
  }

  lemma {:induction false} DrainKeeps(s: System, o: Oracle)
    requires Inv(s, o) && Coherent(o)
    ensures Inv(s.(q := DrainVerified(s.q)), o)
    decreases |s.q.verifying|
  {
    hide Distinct, Keep, Size, Work, Ordered, Subsequence, Hashes;
    var q := s.q;
    if q.verifying != [] && q.verifying[0].Done? {
      var b := q.verifying[0].block;
      var rest := q.(verifying := q.verifying[1..]);
      if b.parent in q.knownBad {
        var q1 := rest.(ready := q.ready - {b.hash}, knownBad := q.knownBad + {b.hash});
        DrainDrops(s, q1, o);
        DrainKeeps(s.(q := q1), o);
      } else {
        var q1 := rest.(verified := q.verified + [b]);
        DrainPasses(s, q1, o);
        DrainKeeps(s.(q := q1), o);
      }
    }
  }

  lemma DrainDrops(s: System, q1: Queue, o: Oracle)
    requires Inv(s, o) && Coherent(o)
    requires s.q.verifying != [] && s.q.verifying[0].Done? && s.q.verifying[0].block.parent in s.q.knownBad
    requires var b := s.q.verifying[0].block;
      q1 == s.q.(verifying := s.q.verifying[1..], ready := s.q.ready - {b.hash}, knownBad := s.q.knownBad + {b.hash})
    ensures Inv(s.(q := q1), o)
  {
    hide Distinct, Keep, Size, Work, Ordered, Subsequence, Hashes, Sound, Separate, Totals, Timed, InOrder;
    var q, b := s.q, s.q.verifying[0].block;
    var tail := Blocks(q.verifying[1..]) + q.unverified;
    assert q.Line() == q.verified + [b] + tail;
    assert q1.Line() == q.verified + tail;
    OneRemoved(s, q.verified, b, tail, q1, s.jobs, o);
  }

  lemma DrainPasses(s: System, q1: Queue, o: Oracle)
    requires Inv(s, o) && Coherent(o)
    requires s.q.verifying != [] && s.q.verifying[0].Done? && s.q.verifying[0].block.parent !in s.q.knownBad
    requires var b := s.q.verifying[0].block;
      q1 == s.q.(verifying := s.q.verifying[1..], verified := s.q.verified + [b])
    ensures Inv(s.(q := q1), o)
  {
    hide Distinct, Keep, Size, Work, Ordered, Subsequence, Hashes, Sound, Separate, Totals, Timed;
    var q, b := s.q, s.q.verifying[0].block;
    var tail := Blocks(q.verifying[1..]) + q.unverified;
    assert q.Line() == q.verified + [b] + tail;
    assert q1.Line() == q.Line();
    assert q.verifying[0] in q.verifying;
    FrontIsSane(s, b, tail, o);
    SameLine(s, q1, s.jobs, o);
  }

  /** Where a job's entry sits in the line. */
  lemma SlotInLine(q: Queue, i: nat)
    requires i < |q.verifying|
    ensures q.Line() == (q.verified + Blocks(q.verifying[..i])) + [q.verifying[i].block]
                        + (Blocks(q.verifying[i + 1..]) + q.unverified)
    ensures Blocks(q.verifying[..i] + q.verifying[i + 1..]) == Blocks(q.verifying[..i]) + Blocks(q.verifying[i + 1..])
  {
    var x := q.verifying[i];
    assert q.verifying == q.verifying[..i] + ([x] + q.verifying[i + 1..]);
    BlocksConcat(q.verifying[..i], [x] + q.verifying[i + 1..]);
    BlocksConcat([x], q.verifying[i + 1..]);
    BlocksConcat(q.verifying[..i], q.verifying[i + 1..]);
  }

  /** A job's entry, when it is still there, carries the job's own block, and no other entry does. */
  lemma JobSlot(q: Queue, jobs: set<Block>, work: Block, i: nat)
    requires Sound(q, q.Line()) && JobsTracked(q, jobs) && work in jobs
    requires i < |q.verifying| && q.verifying[i].Tagged(work.hash)
    ensures q.verifying[i] == Pending(work)
    ensures forall x :: x in q.verifying[..i] || x in q.verifying[i + 1..] ==> x.block != work
  {
    hide Keep, Size, Work, Distinct;
    var b := q.verifying[i].block;
    BlocksMembers(q.verifying);
    assert b in q.Line() && b.hash in q.ready;
    assert Pending(work) in q.verifying && work in q.Line();
    DistinctLookup(q.Line(), b, work);
    var before, after := q.verified + Blocks(q.verifying[..i]), Blocks(q.verifying[i + 1..]) + q.unverified;
    SlotInLine(q, i);
    Around(before, work, after);
    assert work !in before + after;
    BlocksMembers(q.verifying[..i]);
    BlocksMembers(q.verifying[i + 1..]);
  }

  /** A job without an entry lost it to updateBad: its block is known bad already. */
  lemma JobGone(q: Queue, jobs: set<Block>, work: Block)
    requires Sound(q, q.Line()) && JobsTracked(q, jobs) && work in jobs
    requires FindSlot(q.verifying, work.hash) == |q.verifying|
    ensures work.hash in q.knownBad && work.hash !in q.ready
    ensures forall x :: x in q.verifying && x.Pending? ==> x.block != work
  {
    forall x | x in q.verifying ensures x != Pending(work) {
      var j :| 0 <= j < |q.verifying| && q.verifying[j] == x;
      assert !q.verifying[j].Tagged(work.hash);
    }
  }

  function WithoutJob(q: Queue, work: Block): Queue {
    var i := FindSlot(q.verifying, work.hash);
    q.(ready := q.ready - {work.hash}, knownBad := q.knownBad + {work.hash},
       verifying := if i < |q.verifying| then q.verifying[..i] + q.verifying[i + 1..] else q.verifying)
  }

  /** Replacing a finished job's entry by `middle` keeps every other job's entry. */
  lemma SlotReplaced(q: Queue, jobs: set<Block>, work: Block, i: nat, middle: seq<Slot>, q1: Queue)
    requires JobsTracked(q, jobs) && i < |q.verifying| && q.verifying[i] == Pending(work)
    requires forall x :: x in q.verifying[..i] || x in q.verifying[i + 1..] ==> x.block != work
    requires q1.verifying == q.verifying[..i] + middle + q.verifying[i + 1..] && q.knownBad <= q1.knownBad
    requires middle == [] || middle == [Done(work)]
    ensures JobsTracked(q1, jobs - {work})
    ensures forall x :: x in q1.verifying ==> x in q.verifying || x == Done(work)
    ensures middle == [] ==> forall x :: x in q1.verifying ==> x in q.verifying
  {
    var v, v1 := q.verifying, q1.verifying;
    assert v == v[..i] + [Pending(work)] + v[i + 1..];
    forall j | j in jobs - {work} ensures j.hash in q1.knownBad || Pending(j) in v1 {
      if Pending(j) in v {
        assert Pending(j) in v[..i] || Pending(j) in v[i + 1..];
      }
    }
    forall x | x in v1 && x.Pending? ensures x.block in jobs - {work} {
      assert x in v[..i] || x in v[i + 1..];
    }
  }

  /** A failing verifier takes its own block out of the line, and nothing else. */
  lemma EntryRemovedKeeps(s: System, work: Block, i: nat, o: Oracle)
    requires Inv(s, o) && Coherent(o) && work in s.jobs && !o.verifies(work.hash)
    requires i == FindSlot(s.q.verifying, work.hash) < |s.q.verifying|
    ensures Inv(s.(q := WithoutJob(s.q, work), jobs := s.jobs - {work}), o)
  {
    hide Sound, JobsTracked, Clean, Separate, Totals, Timed, InOrder, Healthy, Blocks;
    var q, q1 := s.q, WithoutJob(s.q, work);
    JobSlot(q, s.jobs, work, i);
    SlotInLine(q, i);
    var before, after := q.verified + Blocks(q.verifying[..i]), Blocks(q.verifying[i + 1..]) + q.unverified;
    BlocksConcat(q.verifying[..i], q.verifying[i + 1..]);
    assert q1.Line() == before + after;
    assert q1.verifying == q.verifying[..i] + [] + q.verifying[i + 1..];
    SlotReplaced(q, s.jobs, work, i, [], q1);
    OneRemoved(s, before, work, after, q1, s.jobs - {work}, o);
  }

  lemma WithoutJobKeeps(s: System, work: Block, o: Oracle)
    requires Inv(s, o) && Coherent(o) && work in s.jobs && !o.verifies(work.hash)
    ensures Inv(s.(q := WithoutJob(s.q, work), jobs := s.jobs - {work}), o)
  {
    hide Distinct, Keep, Size, Work, Ordered, Subsequence, Hashes, Separate, Totals, Timed, InOrder;
    var q, q1 := s.q, WithoutJob(s.q, work);
    var i := FindSlot(q.verifying, work.hash);
    if i < |q.verifying| {
      EntryRemovedKeeps(s, work, i, o);
    } else {
      JobGone(q, s.jobs, work);
      assert q1 == q;
      SameLine(s, q1, s.jobs - {work}, o);
    }
  }

  lemma JobBadKeeps(s: System, work: Block, o: Oracle)
    requires Inv(s, o) && Coherent(o) && work in s.jobs && !o.verifies(work.hash)
    ensures Inv(Step(s, JobBad(work)), o)
  {
    hide Sound, Separate, Clean, JobsTracked, Totals, Timed, InOrder, Healthy;
    WithoutJobKeeps(s, work, o);
    DrainKeeps(s.(q := WithoutJob(s.q, work), jobs := s.jobs - {work}), o);
  }

  function MarkDone(q: Queue, work: Block): Queue {
    var i := FindSlot(q.verifying, work.hash);
    if i < |q.verifying| then q.(verifying := q.verifying[i := Done(work)]) else q
  }

  lemma MarkDoneKeeps(s: System, work: Block, o: Oracle)
    requires Inv(s, o) && work in s.jobs && o.verifies(work.hash)
    ensures Inv(s.(q := MarkDone(s.q, work), jobs := s.jobs - {work}), o)
  {
    hide Distinct, Keep, Size, Work, Ordered, Subsequence, Hashes;
    var q, q1 := s.q, MarkDone(s.q, work);
    var i := FindSlot(q.verifying, work.hash);
    if i < |q.verifying| {
      JobSlot(q, s.jobs, work, i);
      MarkDoneLine(q, work, i);
      SlotReplaced(q, s.jobs, work, i, [Done(work)], q1);
      SameLine(s, q1, s.jobs - {work}, o);
    } else {
      JobGone(q, s.jobs, work);
    }
  }

  lemma MarkDoneLine(q: Queue, work: Block, i: nat)
    requires i < |q.verifying| && q.verifying[i] == Pending(work)
    ensures q.(verifying := q.verifying[i := Done(work)]).Line() == q.Line()
    ensures q.verifying[i := Done(work)] == q.verifying[..i] + [Done(work)] + q.verifying[i + 1..]
  {
    var q1 := q.(verifying := q.verifying[i := Done(work)]);
    SlotInLine(q, i);
    SlotInLine(q1, i);
    assert q1.verifying[..i] == q.verifying[..i] && q1.verifying[i + 1..] == q.verifying[i + 1..];
  }

  /** finishing first in line is marking the entry done and draining */
  lemma FinishGoodSplit(q: Queue, work: Block)
    requires FindSlot(q.verifying, work.hash) < |q.verifying| ==>
               q.verifying[FindSlot(q.verifying, work.hash)] == Pending(work)
    ensures FinishGood(q, work) == if q.verifying != [] && q.verifying[0].Tagged(work.hash)
                                   then DrainVerified(MarkDone(q, work)) else MarkDone(q, work)
  {
    if q.verifying != [] && q.verifying[0].Tagged(work.hash) {
      var q1 := MarkDone(q, work);
      assert q1.verifying[0] == Done(work) && q1.verifying[1..] == q.verifying[1..];
    }
  }

  lemma JobGoodKeeps(s: System, work: Block, o: Oracle)
    requires Inv(s, o) && Coherent(o) && work in s.jobs && o.verifies(work.hash)
    ensures Inv(Step(s, JobGood(work)), o)
  {
    hide Sound, Separate, Clean, JobsTracked, Totals, Timed, InOrder, Healthy, FindSlot, FinishGood, DrainVerified, MarkDone;
    var i := FindSlot(s.q.verifying, work.hash);
    if i < |s.q.verifying| { JobSlot(s.q, s.jobs, work, i); }
    FinishGoodSplit(s.q, work);
    MarkDoneKeeps(s, work, o);
    DrainKeeps(s.(q := MarkDone(s.q, work), jobs := s.jobs - {work}), o);
  }

  lemma TakeKeeps(s: System, o: Oracle)
    requires Inv(s, o) && s.q.unverified != []
    ensures Inv(Step(s, TakeJob), o)
  {
    hide Distinct, Keep, Size, Work, Ordered, Subsequence, Hashes;
    var q, q1 := s.q, Take(s.q);
    BlocksConcat(q.verifying, [Pending(q.unverified[0])]);
    assert q1.Line() == q.Line();
    SameLine(s, q1, s.jobs + {q.unverified[0]}, o);
  }

  // ---------- noteReady ----------

  /** Sound, except that the waiting children of hashes in `work` have not been promoted yet. */
  predicate Promising(q: Queue, line: seq<Block>, work: seq<Hash>) {
    && WaitingExact(q) && Distinct(line) && q.ready == Hashes(line) && Separate(q)
    && q.ready !! q.unknownSet && q.knownBad !! q.ready && q.knownBad !! q.unknownSet
    && (forall u :: u in q.unknown ==> u.parent !in q.knownBad && (u.parent in q.ready ==> u.parent in work))
  }

  /** q' is q after the waiting blocks `added` became ready, in this order. */
  predicate Promoted(q: Queue, q': Queue, added: seq<Block>) {
    && q' == q.(unverified := q.unverified + added, ready := q.ready + Hashes(added),
                knownSize := q.knownSize + Size(added), knownCount := q.knownCount + |added|,
                unknown := q'.unknown, unknownSet := q'.unknownSet,
                unknownSize := q'.unknownSize, unknownCount := q'.unknownCount)
    && (forall u :: u in q'.unknown ==> u in q.unknown)
    && (forall u :: u in added ==> u in q.unknown)
    && (forall u :: u in q.unknown ==> u in q'.unknown || u in added)
    && Work(q'.unknown) + Work(added) == Work(q.unknown)
  }

  lemma PromotedLine(q: Queue, q': Queue, added: seq<Block>)
    requires q'.verified == q.verified && q'.verifying == q.verifying && q'.unverified == q.unverified + added
    ensures q'.Line() == q.Line() + added
  {
    assert q.Line() + added == q.verified + Blocks(q.verifying) + (q.unverified + added);
  }

  lemma PromotedTrans(q: Queue, q1: Queue, q2: Queue, a: seq<Block>, b: seq<Block>)
    requires Promoted(q, q1, a) && Promoted(q1, q2, b)
    ensures Promoted(q, q2, a + b)
  {
    hide Size, Work, Hashes;
    HashesConcat(a, b);
    TotalsConcat(a, b);
    assert q.unverified + a + b == q.unverified + (a + b);
  }

  lemma PromoteKeeps(q: Queue, work: seq<Hash>)
    requires work != [] && Promising(q, q.Line(), work)
    ensures var kids := WithParent(q.unknown, work[0]);
      && Promoted(q, Promote(q, work[0]), kids)
      && Promising(Promote(q, work[0]), Promote(q, work[0]).Line(), work[1..] + HashSeq(kids))
  {
    hide Size, Work, Distinct, Hashes, WithParent, WithoutParent, HashSeq, Queue.Line;
    var h := work[0];
    var kids := WithParent(q.unknown, h);
    var q1 := Promote(q, h);
    SplitByParent(q.unknown, h);
    SplitTotals(q.unknown, h);
    SplitHashes(q.unknown, h);
    SplitDistinct(q.unknown, h);
    PromotedLine(q, q1, kids);
    DistinctConcat(q.Line(), kids);
    HashesConcat(q.Line(), kids);
    HashSeqMembers(kids);
  }

  lemma EmptyTotals()
    ensures Hashes([]) == {} && Size([]) == 0 && Work([]) == 0
  {
  }

  lemma {:induction false} NoteReadyKeeps(q: Queue, work: seq<Hash>)
    requires Promising(q, q.Line(), work)
    ensures var q' := NoteReady(q, work);
      && Sound(q', q'.Line()) && Separate(q')
      && |q.unverified| <= |q'.unverified| && Promoted(q, q', Added(q, q'))
    decreases |q.unknown|, |work|
  {
    hide Size, Work, Distinct, Hashes, Queue.Line, WithParent, HashSeq;
    if work == [] {
      assert q.unverified + [] == q.unverified;
      EmptyTotals();
    } else {
      var kids := WithParent(q.unknown, work[0]);
      var q1, work1 := Promote(q, work[0]), work[1..] + HashSeq(kids);
      PromoteKeeps(q, work);
      NoteReadyKeeps(q1, work1);
      var q' := NoteReady(q1, work1);
      PromotedTrans(q, q1, q', kids, Added(q1, q'));
      assert q'.unverified == q.unverified + (kids + Added(q1, q'));
      assert Added(q, q') == kids + Added(q1, q');
    }
  }

  lemma {:induction false} SiblingsOrdered(kids: seq<Block>, base: set<Hash>)
    requires forall k :: k in kids ==> k.parent in base
    ensures Ordered(kids, base)
  {
    if kids != [] {
      SiblingsOrdered(kids[1..], base);
      OrderedWeaken(kids[1..], base, base + {kids[0].hash});
    }
  }

  /** Promotion appends every waiting block behind its parent. */
  lemma {:induction false} NoteReadyOrder(q: Queue, work: seq<Hash>, base: set<Hash>)
    requires Ordered(q.Line(), base) && forall w :: w in work ==> w in base + Hashes(q.Line())
    ensures Ordered(NoteReady(q, work).Line(), base)
    decreases |q.unknown|, |work|
  {
    hide Ordered, Hashes, Queue.Line, WithParent, HashSeq;
    if work != [] {
      var kids := WithParent(q.unknown, work[0]);
      var q1, work1 := Promote(q, work[0]), work[1..] + HashSeq(kids);
      SplitByParent(q.unknown, work[0]);
      SiblingsOrdered(kids, base + Hashes(q.Line()));
      PromotedLine(q, q1, kids);
      OrderedConcat(q.Line(), kids, base);
      HashesConcat(q.Line(), kids);
      HashSeqMembers(kids);
      forall w | w in work1 ensures w in base + Hashes(q1.Line()) {
        if w in work[1..] { assert w in work; } else { assert w in Hashes(kids); }
      }
      NoteReadyOrder(q1, work1, base);
    }
  }

  /** A step that appends good blocks to the line, possibly on top of blocks the chain knows. */
  lemma GrowthKeeps(s: System, q': Queue, added: seq<Block>, seen: set<Hash>, o: Oracle)
    requires Inv(s, o)
    requires q'.verified == s.q.verified && q'.verifying == s.q.verifying && q'.unverified == s.q.unverified + added
    requires q'.knownBad == s.q.knownBad && q'.future == s.q.future && q'.draining == s.q.draining
    requires Sound(q', q'.Line()) && Separate(q') && Totals(q')
    requires Ordered(q'.Line(), Base(s) + seen)
    requires forall b :: b in added ==> Genuine(b, o) && b.parent !in q'.knownBad
    requires forall u :: u in q'.unknown ==> Genuine(u, o)
    requires forall h :: h in seen ==> o.sane(h)
    ensures Inv(s.(q := q', log := s.log + added, chainSeen := s.chainSeen + seen), o)
  {
    hide Ordered, Hashes, Queue.Line, Distinct, Subsequence, Size, Work;
    var s' := s.(q := q', log := s.log + added, chainSeen := s.chainSeen + seen);
    PromotedLine(s.q, q', added);
    assert Base(s') == Base(s) + seen;
    OrderedWeaken(s.drained, s.chainSeen, s'.chainSeen);
    SubsequenceRefl(added);
    SubsequenceConcat(s.drained + s.q.Line(), s.log, added, added);
    assert s.drained + s.q.Line() + added == s.drained + (s.q.Line() + added);
  }

  lemma ChainHasKeeps(s: System, h: Hash, o: Oracle)
    requires Inv(s, o) && o.sane(h)
    ensures Inv(Step(s, ChainHas(h)), o)
  {
    hide Ordered, Hashes, Queue.Line, Distinct, Subsequence, Size, Work;
    var q, q' := s.q, NoteReady(s.q, [h]);
    NoteReadyKeeps(q, [h]);
    var added := Added(q, q');
    OrderedWeaken(q.Line(), Base(s), Base(s) + {h});
    NoteReadyOrder(q, [h], Base(s) + {h});
    PromotedLine(q, q', added);
    TotalsConcat(q.Line(), added);
    GrowthKeeps(s, q', added, {h}, o);
  }

  // ---------- import ----------

  lemma EnqueueKeeps(s: System, b: Block, o: Oracle)
    requires Inv(s, o)
    requires b.hash !in s.q.ready && b.hash !in s.q.draining && b.hash !in s.q.unknownSet && b.hash !in s.q.knownBad
    ensures Promising(Enqueue(s.q, b), Enqueue(s.q, b).Line(), [b.hash])
    ensures Enqueue(s.q, b).Line() == s.q.Line() + [b]
  {
    hide Ordered, Hashes, Queue.Line, Distinct, Subsequence, Size, Work;
    PromotedLine(s.q, Enqueue(s.q, b), [b]);
    DistinctAppend(s.q.Line(), b);
  }

  lemma ImportSuccessKeeps(s: System, a: Arrival, o: Oracle)
    requires Inv(s, o) && Enabled(s, Arrive(a), o) && Outcome(s.q, a).Success?
    ensures Inv(Step(s, Arrive(a)), o)
  {
    hide Ordered, Hashes, Queue.Line, Distinct, Subsequence, Size, Work, NoteReady;
    var q, b := s.q, a.block;
    var q0 := Enqueue(q, b);
    var q' := NoteReady(q0, [b.hash]);
    EnqueueKeeps(s, b, o);
    NoteReadyKeeps(q0, [b.hash]);
    var more, added := Added(q0, q'), Added(q, q');
    assert q'.unverified == q.unverified + ([b] + more);
    assert added == [b] + more;
    var seen := {b.parent} * a.chain;
    ParentInBase(s, a);
    PromotedLine(q, q', added);
    TotalsConcat(q.Line(), added);
    TotalsConcat([b], more);
    SingleTotals(b);
    GrowthKeeps(s, q', added, seen, o);
  }

  lemma SingleTotals(b: Block)
    ensures Size([b]) == b.size && Work([b]) == b.difficulty && Hashes([b]) == {b.hash}
  {
    assert [b][1..] == [];
    HashesOne(b, [b]);
  }

  lemma ParentInBase(s: System, a: Arrival)
    requires Ordered(s.q.Line(), Base(s)) && Ordered(s.drained, s.chainSeen) && s.q.ready == Hashes(s.q.Line())
    requires s.q.draining <= Hashes(s.drained) && ParentKnown(s.q, a)
    ensures Ordered(NoteReady(Enqueue(s.q, a.block), [a.block.hash]).Line(), Base(s) + ({a.block.parent} * a.chain))
  {
    hide Ordered, Hashes, Queue.Line, NoteReady;
    var q, b, base := s.q, a.block, Base(s) + ({a.block.parent} * a.chain);
    PromotedLine(q, Enqueue(q, b), [b]);
    OrderedWeaken(q.Line(), Base(s), base);
    SiblingsOrdered([b], base + Hashes(q.Line()));
    OrderedConcat(q.Line(), [b], base);
    HashesConcat(q.Line(), [b]);
    SingleTotals(b);
    NoteReadyOrder(Enqueue(q, b), [b.hash], base);
  }

  lemma ImportBadKeeps(s: System, a: Arrival, o: Oracle)
    requires Inv(s, o) && Enabled(s, Arrive(a), o) && Outcome(s.q, a).BadChain?
    ensures Inv(Step(s, Arrive(a)), o)
  {
    hide Ordered, Hashes, Queue.Line, Distinct, Subsequence, Size, Work, Keep, UpdateBad;
    var q, h := s.q, a.block.hash;
    var q0 := q.(knownBad := q.knownBad + {h});
    var q' := UpdateBad(q0, h);
    SameListsSameLine(q, q0);
    UpdateBadKeeps(q0, h);
    var s0 := s.(q := q0);
    OrderedWeaken(q.Line(), Base(s), Base(s0));
    SweptHealthy(s, q0, q', o);
    PruneKeeps(s0, q', s.jobs, o);
  }

  lemma SameListsSameLine(q: Queue, q': Queue)
    requires q'.verified == q.verified && q'.verifying == q.verifying && q'.unverified == q.unverified
    ensures q'.Line() == q.Line()
  {
  }

  /** After a sweep that left no bad parent, everything still queued is in good standing. */
  lemma SweptHealthy(s: System, q0: Queue, q': Queue, o: Oracle)
    requires Healthy(s, o) && JobsTracked(s.q, s.jobs)
    requires q0 == s.q.(knownBad := q0.knownBad, draining := q0.draining, difficulty := q0.difficulty,
                        drainingDifficulty := q0.drainingDifficulty) && s.q.knownBad <= q0.knownBad
    requires Swept(q0, q0.Line(), q', q'.Line()) && SlotsSurvive(q0, q') && NoBadParent(q')
    ensures Healthy(s.(q := q'), o) && Clean(q') && JobsTracked(q', s.jobs)
  {
    hide Hashes, Queue.Line, Distinct, Size, Work, Keep, Sound;
    SameListsSameLine(s.q, q0);
    KeepMembers(q0.Line(), q'.knownBad);
    forall b | b in q'.verified ensures b in q'.Line() { VerifiedInLine(q', b); }
  }

  lemma ImportWaitsKeeps(s: System, a: Arrival, o: Oracle)
    requires Inv(s, o) && Enabled(s, Arrive(a), o) && Outcome(s.q, a).UnknownParent?
    ensures Inv(Step(s, Arrive(a)), o)
  {
    hide Ordered, Hashes, Queue.Line, Distinct, Subsequence, Size, Work;
    var q, b, q' := s.q, a.block, Import(s.q, a);
    SameListsSameLine(q, q');
    DistinctAppend(q.unknown, b);
    TotalsConcat(q.unknown, [b]);
    SingleTotals(b);
  }

  lemma {:induction false} InsertByTimeKeeps(t: seq<Block>, b: Block)
    requires Timed(t)
    ensures var r := InsertByTime(t, b);
      && Timed(r) && |r| == |t| + 1 && Size(r) == Size(t) + b.size && Work(r) == Work(t) + b.difficulty
      && (forall x :: x in r <==> x in t || x == b)
  {
    if t == [] || Key(b) < Key(t[0]) {
      assert ([b] + t)[1..] == t;
    } else {
      var rest := InsertByTime(t[1..], b);
      InsertByTimeKeeps(t[1..], b);
      assert ([t[0]] + rest)[1..] == rest;
      forall x | x in rest ensures Key(t[0]) <= Key(x) {}
    }
  }

  lemma ImportFutureKeeps(s: System, a: Arrival, o: Oracle)
    requires Inv(s, o) && (Outcome(s.q, a).FutureTimeKnown? || Outcome(s.q, a).FutureTimeUnknown?)
    ensures Inv(Step(s, Arrive(a)), o)
  {
    hide Ordered, Hashes, Queue.Line, Distinct, Subsequence, Size, Work, InsertByTime, Timed;
    var q, b, q' := s.q, a.block, Import(s.q, a);
    SameListsSameLine(q, q');
    InsertByTimeKeeps(q.future, b);
  }

  lemma ArriveKeeps(s: System, a: Arrival, o: Oracle)
    requires Inv(s, o) && Enabled(s, Arrive(a), o)
    ensures Inv(Step(s, Arrive(a)), o)
  {
    hide Postponed, Parked, Enqueue, NoteReady, UpdateBad, Sound, Separate, Clean, JobsTracked, Totals, Timed, InOrder, Healthy;
    match Outcome(s.q, a)
    case Success => ImportSuccessKeeps(s, a, o);
    case BadChain => ImportBadKeeps(s, a, o);
    case UnknownParent => ImportWaitsKeeps(s, a, o);
    case FutureTimeKnown => ImportFutureKeeps(s, a, o);
    case FutureTimeUnknown => ImportFutureKeeps(s, a, o);
    case _ =>
  }

  // ---------- tick and drain ----------

  lemma {:induction false} DueSplit(t: seq<Block>, now: nat)
    requires Timed(t)
    ensures forall b :: b in DueBy(t, now) ==> Key(b) <= now
    ensures forall b :: b in t[|DueBy(t, now)|..] ==> Key(b) > now
  {
    hide Key;
    if t != [] && Key(t[0]) <= now {
      DueSplit(t[1..], now);
      assert t[|DueBy(t, now)|..] == t[1..][|DueBy(t[1..], now)|..];
    }
  }

  lemma SmallClock(now: nat)
    requires now < 0x1_0000_0000
    ensures now % 0x1_0000_0000 == now
  {
  }

  /** On a clock of 32 bits the comparison with the first key alone changes nothing. */
  lemma DueNowIs(q: Queue, now: nat)
    requires now < 0x1_0000_0000
    ensures DueNow(q, now) == DueBy(q.future, now)
  {
    hide Key;
    SmallClock(now);
  }

  /** On a clock of 32 bits, exactly the blocks whose time has come leave the pool. */
  lemma TickTakesDue(q: Queue, now: nat, b: Block)
    requires Timed(q.future) && now < 0x1_0000_0000 && b in q.future
    ensures Key(b) <= now ==> b in DueNow(q, now)
    ensures Key(b) > now ==> b in Tick(q, now).future
  {
    hide Key, Timed, DueBy, DueNow, Size;
    DueNowIs(q, now);
    DueSplit(q.future, now);
    var k := |DueNow(q, now)|;
    assert q.future == q.future[..k] + q.future[k..];
  }

  lemma TickKeeps(s: System, now: nat, o: Oracle)
    requires Inv(s, o)
    ensures Inv(Step(s, TimePasses(now)), o)
  {
    hide Ordered, Hashes, Queue.Line, Distinct, Subsequence, Size, Work, DueNow, Timed, Key;
    var q, q' := s.q, Tick(s.q, now);
    SameListsSameLine(q, q');
    var due := DueNow(q, now);
    assert q.future == due + q'.future;
    TotalsConcat(due, q'.future);
    TimedRest(q.future, |due|);
  }

  lemma TimedRest(t: seq<Block>, k: nat)
    requires Timed(t) && k <= |t|
    ensures Timed(t[k..])
  {
    hide Key;
  }

  lemma DrainStepKeeps(s: System, max: nat, o: Oracle)
    requires Inv(s, o)
    ensures Inv(Step(s, HandOut(max)), o)
  {
    hide Ordered, Hashes, Queue.Line, Distinct, Subsequence, Size, Work;
    var q, q', out := s.q, Drain(s.q, max), Batch(s.q, max);
    if q.draining != {} {
      assert s.drained + [] == s.drained;
    } else {
      var rest := q'.Line();
      DrainLine(q, max);
      DistinctConcat(out, rest);
      HashesConcat(out, rest);
      HashesConcat(s.drained, out);
      TotalsConcat(out, rest);
      DrainOrder(s, out, rest);
      assert s.drained + out + rest == s.drained + (out + rest);
      assert Base(Step(s, HandOut(max))) == Base(s) + Hashes(out);
      assert q'.ready == Hashes(rest);
      DrainOthers(s, max, o);
    }
  }

  lemma DrainLine(q: Queue, max: nat)
    requires q.draining == {}
    ensures q.Line() == Batch(q, max) + Drain(q, max).Line()
  {
    hide Size, Work, Hashes, Blocks;
    var out := Batch(q, max);
    assert q.verified == out + q.verified[|out|..];
  }

  lemma DrainOthers(s: System, max: nat, o: Oracle)
    requires Inv(s, o) && s.q.draining == {}
    ensures Clean(Drain(s.q, max)) && JobsTracked(Drain(s.q, max), s.jobs)
    ensures Healthy(s.(q := Drain(s.q, max), drained := s.drained + Batch(s.q, max)), o)
  {
    hide Ordered, Hashes, Distinct, Subsequence, Size, Work, Sound, Totals, Timed;
    var q, q', out := s.q, Drain(s.q, max), Batch(s.q, max);
    DrainLine(q, max);
    assert forall b :: b in q'.verified || b in out ==> b in q.verified;
    assert forall b :: b in q'.Line() ==> b in q.Line();
  }

  /** What is handed out has its parent handed out earlier, or known to the chain when it was queued. */
  lemma DrainOrder(s: System, out: seq<Block>, rest: seq<Block>)
    requires Ordered(out + rest, Base(s)) && Ordered(s.drained, s.chainSeen)
    requires forall b :: b in out ==> b.parent !in s.q.knownBad
    ensures Ordered(rest, Base(s) + Hashes(out))
    ensures Ordered(s.drained + out, s.chainSeen)
  {
    hide Ordered;
    OrderedConcat(out, rest, Base(s));
    OrderedDropBase(out, Hashes(s.drained) + s.chainSeen, s.q.knownBad);
    assert s.chainSeen + Hashes(s.drained) == Hashes(s.drained) + s.chainSeen;
    OrderedConcat(s.drained, out, s.chainSeen);
  }

  lemma DoneDrainKeeps(s: System, bads: seq<Hash>, o: Oracle)
    requires Inv(s, o) && forall h :: h in bads ==> h in s.q.draining
    ensures Inv(Step(s, HandOutDone(bads)), o)
  {
    hide Ordered, Hashes, Queue.Line, Distinct, Subsequence, Size, Work, Keep, UpdateBad;
    var q := s.q;
    var q0 := q.(draining := {}, difficulty := q.difficulty - q.drainingDifficulty, drainingDifficulty := 0,
                 knownBad := q.knownBad + set h | h in bads);
    var s0, q' := s.(q := q0), UpdateBadAll(q0, bads);
    SameListsSameLine(q, q0);
    assert Sound(q0, q0.Line());
    OrderedWeaken(q.Line(), Base(s), Base(s0));
    UpdateBadAllKeeps(q0, bads);
    if bads == [] {
      assert q0.knownBad == q.knownBad && q' == q0;
      assert Base(s0) == Base(s);
    } else {
      SweptHealthy(s, q0, q', o);
      PruneKeeps(s0, q', s.jobs, o);
    }
  }

  // ---------- runs ----------

  /** Every step keeps the invariant, whatever the other threads did before. */
  lemma StepKeeps(s: System, e: Event, o: Oracle)
    requires Inv(s, o) && Coherent(o) && Enabled(s, e, o)
    ensures Inv(Step(s, e), o)
  {
    hide Inv, Step;
    match e
    case Arrive(a) => ArriveKeeps(s, a, o);
    case TakeJob => TakeKeeps(s, o);
    case JobGood(work) => JobGoodKeeps(s, work, o);
    case JobBad(work) => JobBadKeeps(s, work, o);
    case HandOut(max) => DrainStepKeeps(s, max, o);
    case HandOutDone(bads) => DoneDrainKeeps(s, bads, o);
    case TimePasses(now) => TickKeeps(s, now, o);
    case ChainHas(h) => ChainHasKeeps(s, h, o);
  }

  predicate IsRun(s: System, es: seq<Event>, o: Oracle)
    decreases |es|
  {
    es == [] || (Enabled(s, es[0], o) && IsRun(Step(s, es[0]), es[1..], o))
  }

  function After(s: System, es: seq<Event>, o: Oracle): System
    requires IsRun(s, es, o)
    decreases |es|
  {
    if es == [] then s else After(Step(s, es[0]), es[1..], o)
  }

  lemma {:induction false} RunKeeps(s: System, es: seq<Event>, o: Oracle)
    requires Inv(s, o) && Coherent(o) && IsRun(s, es, o)
    ensures Inv(After(s, es, o), o)
    decreases |es|
  {
    hide Inv, Step;
    if es != [] {
      StepKeeps(s, es[0], o);
      RunKeeps(Step(s, es[0]), es[1..], o);
    }
  }

  lemma EmptyLine(q: Queue, empty: seq<Block>)
    requires q.verified == [] && q.verifying == [] && q.unverified == [] && empty == []
    ensures q.Line() == empty && Distinct(empty) && empty + empty == empty
    ensures Subsequence(empty, empty) && forall base :: Ordered(empty, base)
  {
  }

  lemma StartsGood(s: System, o: Oracle)
    requires s.q.ready == s.q.draining == s.q.unknownSet == s.q.knownBad == {} && s.jobs == {} && s.chainSeen == {}
    requires s.q.unknown == s.q.future == s.q.verified == s.q.unverified == s.log == s.drained == []
    requires s.q.verifying == []
    requires s.q.unknownCount == s.q.unknownSize == s.q.knownCount == s.q.knownSize == 0
    requires s.q.difficulty == s.q.drainingDifficulty == 0
    ensures Inv(s, o)
  {
    hide Subsequence, Ordered, Distinct, Queue.Line, Size, Work, Hashes;
    EmptyTotals();
    EmptyLine(s.q, s.log);
  }

  lemma RunFromStart(es: seq<Event>, o: Oracle)
    requires Coherent(o) && IsRun(INITIAL, es, o)
    ensures Inv(After(INITIAL, es, o), o)
  {
    hide Inv, Step;
    StartsGood(INITIAL, o);
    RunKeeps(INITIAL, es, o);
  }

  /** The position of a hash in a line. */
  predicate EarlierThan(h: Hash, i: nat, line: seq<Block>) {
    exists j :: 0 <= j < i && j < |line| && line[j].hash == h
  }

  lemma {:induction false} OrderedIndex(line: seq<Block>, base: set<Hash>, i: nat)
    requires Ordered(line, base) && i < |line|
    ensures line[i].parent in base || EarlierThan(line[i].parent, i, line)
  {
    if i > 0 {
      OrderedIndex(line[1..], base + {line[0].hash}, i - 1);
      if EarlierThan(line[i].parent, i - 1, line[1..]) {
        var j :| 0 <= j < i - 1 && j < |line[1..]| && line[1..][j].hash == line[i].parent;
        assert line[j + 1].hash == line[i].parent;
      } else if line[i].parent == line[0].hash {
        assert line[0].hash == line[i].parent;
      }
    }
  }

  lemma {:induction false} DistinctIndex(line: seq<Block>, i: nat, j: nat)
    requires Distinct(line) && i < j < |line|
    ensures line[i].hash != line[j].hash
  {
    if i == 0 {
      assert line[j] in line[1..];
    } else {
      DistinctIndex(line[1..], i - 1, j - 1);
    }
  }

  /**
    In every interleaving: the ready set is exactly the hashes of verified ++ verifying ++ unverified, without
    duplicates, and each block there has its parent earlier in that sequence, already drained, in the
    chain when a block was queued on it, or known bad.
   */
  lemma LineInEveryRun(es: seq<Event>, o: Oracle, i: nat)
    requires Coherent(o) && IsRun(INITIAL, es, o)
    requires i < |After(INITIAL, es, o).q.Line()|
    ensures var s := After(INITIAL, es, o);
      var line := s.q.Line();
      && s.q.ready == Hashes(line)
      && (forall j :: 0 <= j < |line| && j != i ==> line[j].hash != line[i].hash)
      && (EarlierThan(line[i].parent, i, line) || line[i].parent in Hashes(s.drained)
          || line[i].parent in s.chainSeen || line[i].parent in s.q.knownBad)
  {
    hide Separate, Clean, JobsTracked, Totals, Timed, Healthy, Queue.Line, Distinct, Ordered, Subsequence;
    var s := After(INITIAL, es, o);
    var line := s.q.Line();
    RunFromStart(es, o);
    OrderedIndex(line, Base(s), i);
    forall j | 0 <= j < |line| && j != i ensures line[j].hash != line[i].hash {
      if j < i { DistinctIndex(line, j, i); } else { DistinctIndex(line, i, j); }
    }
  }

  /**
    In every interleaving drain hands blocks out in the order in which they became ready, each one after
    its parent unless the chain knew the parent already.
   */
  lemma DrainedInEveryRun(es: seq<Event>, o: Oracle, i: nat)
    requires Coherent(o) && IsRun(INITIAL, es, o)
    requires i < |After(INITIAL, es, o).drained|
    ensures var s := After(INITIAL, es, o);
      && Subsequence(s.drained + s.q.Line(), s.log)
      && (EarlierThan(s.drained[i].parent, i, s.drained) || s.drained[i].parent in s.chainSeen)
      && o.sane(s.drained[i].hash)
  {
    hide Separate, Clean, JobsTracked, Totals, Timed, Queue.Line, Distinct, Ordered, Subsequence;
    var s := After(INITIAL, es, o);
    RunFromStart(es, o);
    OrderedIndex(s.drained, s.chainSeen, i);
  }

  /** In every interleaving, no verified block is known bad itself and none has a known-bad parent. */
  lemma VerifiedIsCleanInEveryRun(es: seq<Event>, o: Oracle, b: Block)
    requires Coherent(o) && IsRun(INITIAL, es, o)
    requires b in After(INITIAL, es, o).q.verified
    ensures var q := After(INITIAL, es, o).q;
      b.hash !in q.knownBad && b.parent !in q.knownBad && b.hash in q.ready
  {
    hide Separate, JobsTracked, Totals, Timed, InOrder, Healthy, Distinct;
    RunFromStart(es, o);
    VerifiedInLine(After(INITIAL, es, o).q, b);
  }

  /**
    In every interleaving the waiting pool and its counters are exact, no waiting block's parent is ready,
    draining or known bad, and the known totals are never below the true ones: no counter is ever negative.
   */
  lemma CountersInEveryRun(es: seq<Event>, o: Oracle)
    requires Coherent(o) && IsRun(INITIAL, es, o)
    ensures var q := After(INITIAL, es, o).q;
      && q.unknownSet == Hashes(q.unknown) && Distinct(q.unknown)
      && q.unknownCount == |q.unknown| + |q.future|
      && q.unknownSize == Size(q.unknown) + Size(q.future)
      && (forall u :: u in q.unknown ==> u.parent !in q.ready + q.draining + q.knownBad)
      && q.knownCount >= |q.Line()| && q.knownSize >= Size(q.Line())
      && q.difficulty - q.drainingDifficulty >= Work(q.Line()) + Work(q.unknown) + Work(q.future)
      && q.drainingDifficulty >= 0
  {
    hide Clean, JobsTracked, Timed, InOrder, Healthy, Distinct, Size, Work, Queue.Line;
    RunFromStart(es, o);
  }

  lemma {:induction false} DistinctCount(line: seq<Block>)
    requires Distinct(line)
    ensures |Hashes(line)| == |line|
  {
    if line != [] {
      DistinctCount(line[1..]);
      HashesOne(line[0], line);
    }
  }

  /** The queue's own run-time check, comparing sizes only, never fails in any interleaving. */
  lemma OwnCheckPassesInEveryRun(es: seq<Event>, o: Oracle)
    requires Coherent(o) && IsRun(INITIAL, es, o)
    ensures var q := After(INITIAL, es, o).q; |q.ready| == |q.verified| + |q.unverified| + |q.verifying|
  {
    hide Separate, Clean, JobsTracked, Totals, Timed, InOrder, Healthy, Distinct;
    RunFromStart(es, o);
    DistinctCount(After(INITIAL, es, o).q.Line());
  }
}
