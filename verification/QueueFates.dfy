/** What becomes of the blocks of the queue in every run: why a hash is known bad, and where ready blocks go. */
module QueueFates {
  import opened Lines
  import opened QueueSpec
  import opened QueueSafety
  import opened QueueBlame
  import opened QueueRuns

  // ---------- why a hash is known bad ----------

  function ReportedBy(e: Event): set<Hash> {
    if e.HandOutDone? then set h | h in e.bads else {}
  }

  /** All hashes that the chain reported bad in a run. */
  function Reported(es: seq<Event>): set<Hash> {
    if es == [] then {} else ReportedBy(es[0]) + Reported(es[1..])
  }

  /** A bad hash failed verification, was reported by the chain, or has a bad parent. */
  predicate Explained(bad: set<Hash>, o: Oracle, reported: set<Hash>) {
    forall h :: h in bad ==> !o.verifies(h) || h in reported || o.parent(h) in bad
  }

  lemma ExplainedMore(bad: set<Hash>, bad': set<Hash>, o: Oracle, reported: set<Hash>)
    requires Explained(bad, o, reported) && bad <= bad'
    requires forall h :: h in bad' && h !in bad ==> !o.verifies(h) || h in reported || o.parent(h) in bad'
    ensures Explained(bad', o, reported)
  {
  }

  /** Whatever a sweep condemns is the child of a bad block. */
  lemma BlamedExplained(q: Queue, q': Queue, g: Ground, o: Oracle, reported: set<Hash>)
    requires Blamed(q', g) && Explained(g.roots, o, reported) && forall b :: b in g.pool ==> Genuine(b, o)
    ensures Explained(q'.knownBad, o, reported)
  {
    hide WithinPool, Descends;
    forall h | h in q'.knownBad && h !in g.roots ensures o.parent(h) in q'.knownBad {
      assert HasBadParent(g.pool, q'.knownBad, h);
    }
    ExplainedMore(g.roots, q'.knownBad, o, reported);
  }

  lemma PoolGenuine(s: System, o: Oracle)
    requires Healthy(s, o)
    ensures forall b :: b in Pool(s.q) ==> Genuine(b, o)
  {
    hide Queue.Line;
  }

  lemma {:induction false} DrainExplained(q: Queue, o: Oracle, reported: set<Hash>)
    requires Explained(q.knownBad, o, reported) && forall s :: s in q.verifying ==> Genuine(s.block, o)
    ensures Explained(DrainVerified(q).knownBad, o, reported)
    decreases |q.verifying|
  {
    if q.verifying != [] && q.verifying[0].Done? {
      var b := q.verifying[0].block;
      assert Genuine(b, o);
      var rest := q.(verifying := q.verifying[1..]);
      var q1 := if b.parent in q.knownBad then rest.(ready := q.ready - {b.hash}, knownBad := q.knownBad + {b.hash})
                else rest.(verified := q.verified + [b]);
      ExplainedMore(q.knownBad, q1.knownBad, o, reported);
      hide Explained;
      DrainExplained(q1, o, reported);
    }
  }

  lemma SlotsGenuine(s: System, o: Oracle)
    requires Healthy(s, o)
    ensures forall x :: x in s.q.verifying ==> Genuine(x.block, o)
  {
    BlocksMembers(s.q.verifying);
    assert forall b :: b in Blocks(s.q.verifying) ==> b in s.q.Line();
  }

  lemma NoteReadyBad(q: Queue, work: seq<Hash>)
    ensures NoteReady(q, work).knownBad == q.knownBad
    decreases |q.unknown|, |work|
  {
    if work != [] { NoteReadyBad(Promote(q, work[0]), work[1..] + HashSeq(WithParent(q.unknown, work[0]))); }
  }

  lemma ArriveExplained(s: System, a: Arrival, o: Oracle, reported: set<Hash>)
    requires Inv(s, o) && Enabled(s, Arrive(a), o) && Explained(s.q.knownBad, o, reported)
    ensures Explained(Import(s.q, a).knownBad, o, reported)
  {
    hide Sound, Separate, Clean, JobsTracked, Totals, Timed, InOrder, NoteReady, UpdateBad, Queue.Line;
    var q, b := s.q, a.block;
    if Outcome(q, a).Success? {
      NoteReadyBad(Enqueue(q, b), [b.hash]);
    } else if Outcome(q, a).BadChain? {
      var q0 := q.(knownBad := q.knownBad + {b.hash});
      assert Genuine(b, o);
      ExplainedMore(q.knownBad, q0.knownBad, o, reported);
      StartsBlamed(q0);
      UpdateBadBlamed(q0, b.hash, GroundOf(q0));
      PoolGenuine(s, o);
      SameListsSameLine(q, q0);
      hide Explained, Healthy, Blamed;
      BlamedExplained(q0, UpdateBad(q0, b.hash), GroundOf(q0), o, reported);
    }
  }

  lemma JobGoodExplained(s: System, work: Block, o: Oracle, reported: set<Hash>)
    requires Inv(s, o) && work in s.jobs && Explained(s.q.knownBad, o, reported)
    ensures Explained(FinishGood(s.q, work).knownBad, o, reported)
  {
    hide Separate, Clean, Totals, Timed, InOrder, FinishGood, DrainVerified, Explained, Sound, Queue.Line;
    var i := FindSlot(s.q.verifying, work.hash);
    if i < |s.q.verifying| { JobSlot(s.q, s.jobs, work, i); }
    FinishGoodSplit(s.q, work);
    SlotsGenuine(s, o);
    var q1 := MarkDone(s.q, work);
    forall x | x in q1.verifying ensures Genuine(x.block, o) {
      if x !in s.q.verifying { assert s.q.verifying[i] in s.q.verifying; }
    }
    DrainExplained(q1, o, reported);
  }

  lemma JobBadExplained(s: System, work: Block, o: Oracle, reported: set<Hash>)
    requires Inv(s, o) && !o.verifies(work.hash) && Explained(s.q.knownBad, o, reported)
    ensures Explained(FinishBad(s.q, work).knownBad, o, reported)
  {
    hide Sound, Separate, Clean, JobsTracked, Totals, Timed, InOrder, DrainVerified, Queue.Line;
    SlotsGenuine(s, o);
    var i := FindSlot(s.q.verifying, work.hash);
    var left := if i < |s.q.verifying| then s.q.verifying[..i] + s.q.verifying[i + 1..] else s.q.verifying;
    var q1 := s.q.(ready := s.q.ready - {work.hash}, knownBad := s.q.knownBad + {work.hash}, verifying := left);
    ExplainedMore(s.q.knownBad, q1.knownBad, o, reported);
    hide Explained, Healthy;
    DrainExplained(q1, o, reported);
  }

  lemma DoneDrainExplained(s: System, bads: seq<Hash>, o: Oracle, reported: set<Hash>)
    requires Inv(s, o) && Explained(s.q.knownBad, o, reported)
    ensures Explained(DoneDrain(s.q, bads).knownBad, o, reported + set h | h in bads)
  {
    hide Sound, Separate, Clean, JobsTracked, Totals, Timed, InOrder, Queue.Line, UpdateBadAll;
    var q, more := s.q, reported + set h | h in bads;
    var q0 := q.(draining := {}, difficulty := q.difficulty - q.drainingDifficulty, drainingDifficulty := 0,
                 knownBad := q.knownBad + set h | h in bads);
    ExplainedMore(q.knownBad, q0.knownBad, o, more);
    StartsBlamed(q0);
    UpdateBadAllBlamed(q0, bads, GroundOf(q0));
    PoolGenuine(s, o);
    SameListsSameLine(q, q0);
    hide Explained, Healthy, Blamed;
    BlamedExplained(q0, UpdateBadAll(q0, bads), GroundOf(q0), o, more);
  }

  lemma StepExplained(s: System, e: Event, o: Oracle, reported: set<Hash>)
    requires Inv(s, o) && Enabled(s, e, o) && Explained(s.q.knownBad, o, reported)
    ensures Explained(Step(s, e).q.knownBad, o, reported + ReportedBy(e))
  {
    hide Inv, Import, FinishGood, FinishBad, DoneDrain, NoteReady, Explained;
    assert reported + {} == reported;
    match e
    case Arrive(a) => ArriveExplained(s, a, o, reported);
    case TakeJob =>
    case JobGood(work) => JobGoodExplained(s, work, o, reported);
    case JobBad(work) => JobBadExplained(s, work, o, reported);
    case HandOut(max) =>
    case HandOutDone(bads) => DoneDrainExplained(s, bads, o, reported);
    case TimePasses(now) =>
    case ChainHas(h) => NoteReadyBad(s.q, [h]);
  }

  lemma {:induction false} RunExplained(s: System, es: seq<Event>, o: Oracle, reported: set<Hash>)
    requires Inv(s, o) && Coherent(o) && IsRun(s, es, o) && Explained(s.q.knownBad, o, reported)
    ensures Explained(After(s, es, o).q.knownBad, o, reported + Reported(es))
    decreases |es|
  {
    hide Inv, Step, Explained;
    if es == [] {
      assert reported + Reported(es) == reported;
    } else {
      StepKeeps(s, es[0], o);
      StepExplained(s, es[0], o, reported);
      RunExplained(Step(s, es[0]), es[1..], o, reported + ReportedBy(es[0]));
      assert reported + ReportedBy(es[0]) + Reported(es[1..]) == reported + Reported(es);
    }
  }

  /** In every interleaving a known-bad hash failed verification, was reported bad by the chain, or has a known-bad parent. */
  lemma KnownBadInEveryRun(es: seq<Event>, o: Oracle, h: Hash)
    requires Coherent(o) && IsRun(INITIAL, es, o) && h in After(INITIAL, es, o).q.knownBad
    ensures !o.verifies(h) || h in Reported(es) || o.parent(h) in After(INITIAL, es, o).q.knownBad
  {
    hide Inv, Step;
    StartsGood(INITIAL, o);
    RunExplained(INITIAL, es, o, {});
    assert {} + Reported(es) == Reported(es);
  }

  // ---------- where ready blocks go ----------

  /** No queued block disappears without being condemned. */
  predicate Survives(q: Queue, q': Queue) {
    q.knownBad <= q'.knownBad && forall b :: b in q.Line() ==> b in q'.Line() || b.hash in q'.knownBad
  }

  lemma SurvivesTrans(q: Queue, q1: Queue, q2: Queue)
    requires Survives(q, q1) && Survives(q1, q2)
    ensures Survives(q, q2)
  {
    hide Queue.Line;
  }

  lemma SweptSurvives(q: Queue, q': Queue)
    requires Swept(q, q.Line(), q', q'.Line())
    ensures Survives(q, q')
  {
    hide Queue.Line, Sound, Work, Keep;
    KeepMembers(q.Line(), q'.knownBad);
  }

  lemma {:induction false} DrainSurvives(q: Queue)
    ensures Survives(q, DrainVerified(q))
    decreases |q.verifying|
  {
    if q.verifying != [] && q.verifying[0].Done? {
      var b := q.verifying[0].block;
      var rest := q.(verifying := q.verifying[1..]);
      var q1 := if b.parent in q.knownBad then rest.(ready := q.ready - {b.hash}, knownBad := q.knownBad + {b.hash})
                else rest.(verified := q.verified + [b]);
      assert Blocks(q.verifying) == [b] + Blocks(q1.verifying);
      assert Survives(q, q1);
      hide Queue.Line;
      DrainSurvives(q1);
      SurvivesTrans(q, q1, DrainVerified(q1));
    }
  }

  /** Every block that ever became ready was drained, is still queued, or is known bad. */
  predicate Accounted(s: System) {
    forall b :: b in s.log ==> b in s.drained || b in s.q.Line() || b.hash in s.q.knownBad
  }

  lemma SurvivesAccounted(s: System, s': System)
    requires Accounted(s) && Survives(s.q, s'.q) && s'.log == s.log && s'.drained == s.drained
    ensures Accounted(s')
  {
    hide Queue.Line;
  }

  lemma GrownAccounted(s: System, s': System, added: seq<Block>)
    requires Accounted(s) && s'.q.Line() == s.q.Line() + added && s'.q.knownBad == s.q.knownBad
    requires s'.log == s.log + added && s'.drained == s.drained
    ensures Accounted(s')
  {
    hide Queue.Line;
  }

  lemma ArriveAccounted(s: System, a: Arrival, o: Oracle)
    requires Inv(s, o) && Accounted(s) && Enabled(s, Arrive(a), o)
    ensures Accounted(Step(s, Arrive(a)))
  {
    hide Clean, JobsTracked, Totals, Timed, InOrder, Healthy, NoteReady, UpdateBad, Queue.Line, Sound, Separate, Accounted, Survives;
    var q, s' := s.q, Step(s, Arrive(a));
    if Outcome(q, a).Success? {
      QueuedAccounted(s, a, o);
    } else if Outcome(q, a).BadChain? {
      BadChainSurvives(s, a, o);
      SurvivesAccounted(s, s');
    } else {
      SameSurvives(q, s'.q);
      SurvivesAccounted(s, s');
    }
  }

  lemma QueuedAccounted(s: System, a: Arrival, o: Oracle)
    requires Inv(s, o) && Accounted(s) && Enabled(s, Arrive(a), o) && Outcome(s.q, a).Success?
    ensures Accounted(Step(s, Arrive(a)))
  {
    hide Clean, JobsTracked, Totals, Timed, InOrder, Healthy, NoteReady, UpdateBad, Queue.Line, Sound, Separate, Accounted, Survives;
    var q, b, s' := s.q, a.block, Step(s, Arrive(a));
    var q0 := Enqueue(q, b);
    EnqueueKeeps(s, b, o);
    NoteReadyKeeps(q0, [b.hash]);
    var more := Added(q0, s'.q);
    assert s'.q.unverified == q.unverified + ([b] + more);
    assert Added(q, s'.q) == [b] + more;
    PromotedLine(q, s'.q, [b] + more);
    GrownAccounted(s, s', [b] + more);
  }

  lemma SameSurvives(q: Queue, q': Queue)
    requires q'.verified == q.verified && q'.verifying == q.verifying && q'.unverified == q.unverified && q.knownBad <= q'.knownBad
    ensures Survives(q, q')
  {
    SameListsSameLine(q, q');
    hide Queue.Line;
  }

  lemma BadChainSurvives(s: System, a: Arrival, o: Oracle)
    requires Inv(s, o) && Outcome(s.q, a).BadChain?
    ensures Survives(s.q, Import(s.q, a))
  {
    hide Clean, JobsTracked, Totals, Timed, InOrder, Healthy, UpdateBad, Queue.Line, Distinct, Hashes, Size;
    var q0 := s.q.(knownBad := s.q.knownBad + {a.block.hash});
    SameListsSameLine(s.q, q0);
    UpdateBadKeeps(q0, a.block.hash);
    SameSurvives(s.q, q0);
    SweptSurvives(q0, UpdateBad(q0, a.block.hash));
    SurvivesTrans(s.q, q0, UpdateBad(q0, a.block.hash));
  }

  lemma JobsSurvive(s: System, work: Block, o: Oracle)
    requires Inv(s, o) && work in s.jobs
    ensures Survives(s.q, FinishGood(s.q, work)) && Survives(s.q, FinishBad(s.q, work))
  {
    hide Clean, Totals, Timed, InOrder, Healthy, Separate, DrainVerified, FinishGood, Distinct, Hashes;
    var q, i := s.q, FindSlot(s.q.verifying, work.hash);
    var q1, q2 := MarkDone(q, work), WithoutJob(q, work);
    if i < |q.verifying| {
      JobSlot(q, s.jobs, work, i);
      MarkDoneLine(q, work, i);
      SlotInLine(q, i);
      SurvivesRemoval(q, work, i);
    } else {
      SameSurvives(q, q2);
    }
    hide Sound, JobsTracked, Queue.Line;
    FinishGoodSplit(q, work);
    SameOrMarked(q, q1);
    DrainSurvives(q1);
    DrainSurvives(q2);
    SurvivesTrans(q, q1, DrainVerified(q1));
    SurvivesTrans(q, q2, DrainVerified(q2));
  }

  lemma SameOrMarked(q: Queue, q1: Queue)
    requires q1.Line() == q.Line() && q1.knownBad == q.knownBad
    ensures Survives(q, q1)
  {
  }

  lemma SurvivesRemoval(q: Queue, work: Block, i: nat)
    requires i == FindSlot(q.verifying, work.hash) < |q.verifying| && q.verifying[i] == Pending(work)
    ensures Survives(q, WithoutJob(q, work))
  {
    SlotInLine(q, i);
    var q' := WithoutJob(q, work);
    var a, c := q.verified + Blocks(q.verifying[..i]), Blocks(q.verifying[i + 1..]) + q.unverified;
    hide Blocks, FindSlot;
    Regroup(q.verified, Blocks(q.verifying[..i]), Blocks(q.verifying[i + 1..]), q.unverified);
    assert q'.Line() == a + c && q.Line() == a + [work] + c;
    hide Queue.Line;
    forall b | b in q.Line() ensures b in q'.Line() || b.hash in q'.knownBad {
      if b != work { InOneOfThree(a, work, c, b); }
    }
  }

  lemma Regroup(a: seq<Block>, b: seq<Block>, c: seq<Block>, d: seq<Block>)
    ensures a + (b + c) + d == (a + b) + (c + d)
  {
  }

  lemma InOneOfThree(a: seq<Block>, x: Block, c: seq<Block>, b: Block)
    requires b in a + [x] + c && b != x
    ensures b in a + c
  {
    assert b in a || b in [x] || b in c;
  }

  lemma DoneDrainSurvives(s: System, bads: seq<Hash>, o: Oracle)
    requires Inv(s, o) && forall h :: h in bads ==> h in s.q.draining
    ensures Survives(s.q, DoneDrain(s.q, bads))
  {
    hide Clean, JobsTracked, Totals, Timed, InOrder, Healthy, UpdateBadAll, Queue.Line, Distinct, Hashes, Size;
    var q := s.q;
    var q0 := q.(draining := {}, difficulty := q.difficulty - q.drainingDifficulty, drainingDifficulty := 0,
                 knownBad := q.knownBad + set h | h in bads);
    SameListsSameLine(q, q0);
    assert Sound(q0, q0.Line());
    UpdateBadAllKeeps(q0, bads);
    SameSurvives(q, q0);
    SweptSurvives(q0, UpdateBadAll(q0, bads));
    SurvivesTrans(q, q0, UpdateBadAll(q0, bads));
  }

  lemma StepAccounted(s: System, e: Event, o: Oracle)
    requires Inv(s, o) && Accounted(s) && Enabled(s, e, o)
    ensures Accounted(Step(s, e))
  {
    hide Inv, Import, FinishGood, FinishBad, DoneDrain, NoteReady, Accounted, Survives, Queue.Line;
    match e
    case Arrive(a) => ArriveAccounted(s, a, o);
    case TakeJob =>
      TakeLine(s.q);
      SurvivesAccounted(s, Step(s, e));
    case JobGood(work) =>
      JobsSurvive(s, work, o);
      SurvivesAccounted(s, Step(s, e));
    case JobBad(work) =>
      JobsSurvive(s, work, o);
      SurvivesAccounted(s, Step(s, e));
    case HandOut(max) => HandOutAccounted(s, max);
    case HandOutDone(bads) =>
      DoneDrainSurvives(s, bads, o);
      SurvivesAccounted(s, Step(s, e));
    case TimePasses(now) =>
      SameSurvives(s.q, Tick(s.q, now));
      SurvivesAccounted(s, Step(s, e));
    case ChainHas(h) => ChainHasAccounted(s, h, o);
  }

  lemma TakeLine(q: Queue)
    requires q.unverified != []
    ensures Survives(q, Take(q))
  {
    BlocksConcat(q.verifying, [Pending(q.unverified[0])]);
    assert Take(q).Line() == q.Line();
  }

  lemma HandOutAccounted(s: System, max: nat)
    requires Accounted(s)
    ensures Accounted(Step(s, HandOut(max)))
  {
    if s.q.draining == {} { DrainLine(s.q, max); }
    hide Queue.Line;
  }

  lemma ChainHasAccounted(s: System, h: Hash, o: Oracle)
    requires Inv(s, o) && Accounted(s)
    ensures Accounted(Step(s, ChainHas(h)))
  {
    hide Clean, JobsTracked, Totals, Timed, InOrder, Healthy, Accounted, Queue.Line, NoteReady, Distinct, Hashes, Size, Work;
    NoteReadyKeeps(s.q, [h]);
    var q' := NoteReady(s.q, [h]);
    PromotedLine(s.q, q', Added(s.q, q'));
    GrownAccounted(s, Step(s, ChainHas(h)), Added(s.q, q'));
  }

  lemma {:induction false} RunAccounted(s: System, es: seq<Event>, o: Oracle)
    requires Inv(s, o) && Coherent(o) && IsRun(s, es, o) && Accounted(s)
    ensures Accounted(After(s, es, o))
    decreases |es|
  {
    hide Inv, Step, Accounted;
    if es != [] {
      StepKeeps(s, es[0], o);
      StepAccounted(s, es[0], o);
      RunAccounted(Step(s, es[0]), es[1..], o);
    }
  }

  /** In every interleaving, each block that ever became ready was drained, is still queued, or is known bad. */
  lemma ReadyIsAccountedInEveryRun(es: seq<Event>, o: Oracle, b: Block)
    requires Coherent(o) && IsRun(INITIAL, es, o) && b in After(INITIAL, es, o).log
    ensures var s := After(INITIAL, es, o); b in s.drained || b in s.q.Line() || b.hash in s.q.knownBad
  {
    hide Inv, Step, Queue.Line;
    StartsGood(INITIAL, o);
    RunAccounted(INITIAL, es, o);
  }
}
