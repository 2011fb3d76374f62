/**
  The block queue as a state machine: each lock-protected section of
  libelementrem/libelementrem/BlockQueue.cpp is one step over the queue's fields.
 */
module QueueSpec {
  import opened Lines

  /**
    An entry of the verifying list. A `Pending` entry stands for a job a verifier thread still works on;
    the code marks it by storing the job's hash in the uncles-hash field of an otherwise empty header.
    A `Done` entry carries the real header, whose uncles hash is the hash of a list of headers and so,
    hashes being injective, is never the hash of a header: it matches no job and is never known bad.
   */
  datatype Slot = Pending(block: Block) | Done(block: Block) {
    predicate Tagged(h: Hash) {
      Pending? && block.hash == h
    }
    predicate TagIn(hs: set<Hash>) {
      Pending? && block.hash in hs
    }
  }

  function Blocks(slots: seq<Slot>): (r: seq<Block>)
    ensures |r| == |slots|
  {
    if slots == [] then [] else [slots[0].block] + Blocks(slots[1..])
  }

  /** The fields of the queue. `unknown` is the multimap from parent hash, `future` the one from timestamp. */
  datatype Queue = Queue(
    ready: set<Hash>, draining: set<Hash>, unknownSet: set<Hash>, knownBad: set<Hash>,
    unknown: seq<Block>, future: seq<Block>,
    verified: seq<Block>, verifying: seq<Slot>, unverified: seq<Block>,
    unknownCount: int, unknownSize: int, knownCount: int, knownSize: int,
    difficulty: int, drainingDifficulty: int)
  {
    /** Everything that is queued, in the order in which it will be handed out. */
    function Line(): seq<Block> {
      verified + Blocks(verifying) + unverified
    }
  }

  const EMPTY_QUEUE := Queue({}, {}, {}, {}, [], [], [], [], [], 0, 0, 0, 0, 0, 0)

  // ---------- multimaps ----------

  function WithParent(s: seq<Block>, p: Hash): (r: seq<Block>)
    ensures |r| <= |s|
  {
    if s == [] then []
    else if s[0].parent == p then [s[0]] + WithParent(s[1..], p)
    else WithParent(s[1..], p)
  }

  function WithoutParent(s: seq<Block>, p: Hash): (r: seq<Block>)
    ensures |r| + |WithParent(s, p)| == |s|
  {
    if s == [] then []
    else if s[0].parent == p then WithoutParent(s[1..], p)
    else [s[0]] + WithoutParent(s[1..], p)
  }

  function HashSeq(s: seq<Block>): (r: seq<Hash>)
    ensures |r| == |s|
  {
    if s == [] then [] else [s[0].hash] + HashSeq(s[1..])
  }

  // ---------- noteReady ----------

  /** One round of the noteReady worklist: the waiting children of `h` become ready. */
  function Promote(q: Queue, h: Hash): Queue {
    var kids := WithParent(q.unknown, h);
    q.(unverified := q.unverified + kids,
       knownSize := q.knownSize + Size(kids), knownCount := q.knownCount + |kids|,
       unknownSize := q.unknownSize - Size(kids), unknownCount := q.unknownCount - |kids|,
       unknownSet := q.unknownSet - Hashes(kids), ready := q.ready + Hashes(kids),
       unknown := WithoutParent(q.unknown, h))
  }

  function NoteReady(q: Queue, work: seq<Hash>): Queue
    decreases |q.unknown|, |work|
  {
    if work == [] then q
    else NoteReady(Promote(q, work[0]), work[1..] + HashSeq(WithParent(q.unknown, work[0])))
  }

  // ---------- bad blocks ----------

  /** One round of the collectUnknownBad worklist: the waiting children of `h` become known bad. */
  function Condemn(q: Queue, h: Hash): Queue {
    var kids := WithParent(q.unknown, h);
    q.(unknownSize := q.unknownSize - Size(kids), unknownCount := q.unknownCount - |kids|,
       unknownSet := q.unknownSet - Hashes(kids), knownBad := q.knownBad + Hashes(kids),
       unknown := WithoutParent(q.unknown, h))
  }

  function CollectUnknownBad(q: Queue, work: seq<Hash>): Queue
    decreases |q.unknown|, |work|
  {
    if work == [] then q
    else CollectUnknownBad(Condemn(q, work[0]), work[1..] + HashSeq(WithParent(q.unknown, work[0])))
  }

  /** A queued block found bad: note it, forget that it is ready, condemn what waits for it. */
  function Drop(q: Queue, h: Hash): Queue {
    CollectUnknownBad(q.(knownBad := q.knownBad + {h}, ready := q.ready - {h}), [h])
  }

  predicate IsBad(q: Queue, b: Block) {
    b.parent in q.knownBad || b.hash in q.knownBad
  }

  /** A verifying entry is tested by parent and by its uncles-hash field. */
  predicate IsBadSlot(q: Queue, s: Slot) {
    s.block.parent in q.knownBad || s.TagIn(q.knownBad)
  }

  /** The scans of updateBad over the three lists, each keeping what is not bad when it is reached. */
  function SweepVerified(q: Queue, todo: seq<Block>): Queue
    decreases |todo|
  {
    if todo == [] then q
    else if IsBad(q, todo[0]) then SweepVerified(Drop(q, todo[0].hash), todo[1..])
    else SweepVerified(q.(verified := q.verified + [todo[0]]), todo[1..])
  }

  function SweepUnverified(q: Queue, todo: seq<Block>): Queue
    decreases |todo|
  {
    if todo == [] then q
    else if IsBad(q, todo[0]) then SweepUnverified(Drop(q, todo[0].hash), todo[1..])
    else SweepUnverified(q.(unverified := q.unverified + [todo[0]]), todo[1..])
  }

  function SweepVerifying(q: Queue, todo: seq<Slot>): Queue
    decreases |todo|
  {
    if todo == [] then q
    else if IsBadSlot(q, todo[0]) then SweepVerifying(Drop(q, todo[0].block.hash), todo[1..])
    else SweepVerifying(q.(verifying := q.verifying + [todo[0]]), todo[1..])
  }

  /** One iteration of updateBad's outer loop. */
  function SweepRound(q: Queue): Queue {
    var q1 := SweepVerified(q.(verified := []), q.verified);
    var q2 := SweepUnverified(q1.(unverified := []), q1.unverified);
    SweepVerifying(q2.(verifying := []), q2.verifying)
  }

  /** The number of queued entries: it falls in every round that finds something bad. */
  function Load(q: Queue): nat {
    |q.verified| + |q.verifying| + |q.unverified|
  }

  function SweepAll(q: Queue): Queue
    decreases Load(q)
  {
    var q' := SweepRound(q);
    if Load(q') < Load(q) then SweepAll(q') else q'
  }

  function UpdateBad(q: Queue, bad: Hash): Queue {
    SweepAll(CollectUnknownBad(q, [bad]))
  }

  function UpdateBadAll(q: Queue, bads: seq<Hash>): Queue
    decreases |bads|
  {
    if bads == [] then q else UpdateBadAll(UpdateBad(q, bads[0]), bads[1..])
  }

  // ---------- verifier threads ----------

  /** drainVerified: finished entries at the front of verifying move on, or are dropped for a bad parent. */
  function DrainVerified(q: Queue): Queue
    decreases |q.verifying|
  {
    if q.verifying == [] || q.verifying[0].Pending? then q
    else
      var b := q.verifying[0].block;
      var rest := q.(verifying := q.verifying[1..]);
      DrainVerified(
        if b.parent in q.knownBad then rest.(ready := q.ready - {b.hash}, knownBad := q.knownBad + {b.hash})
        else rest.(verified := q.verified + [b]))
  }

  function Take(q: Queue): Queue
    requires q.unverified != []
  {
    q.(unverified := q.unverified[1..], verifying := q.verifying + [Pending(q.unverified[0])])
  }

  /** The first entry tagged with `h`, or the length of the list. */
  function FindSlot(s: seq<Slot>, h: Hash): (i: nat)
    ensures i <= |s|
    ensures i < |s| ==> s[i].Tagged(h)
    ensures forall j :: 0 <= j < i ==> !s[j].Tagged(h)
  {
    if s == [] || s[0].Tagged(h) then 0 else 1 + FindSlot(s[1..], h)
  }

  function FinishBad(q: Queue, work: Block): Queue {
    var i := FindSlot(q.verifying, work.hash);
    var left := if i < |q.verifying| then q.verifying[..i] + q.verifying[i + 1..] else q.verifying;
    DrainVerified(q.(ready := q.ready - {work.hash}, knownBad := q.knownBad + {work.hash}, verifying := left))
  }

  function FinishGood(q: Queue, work: Block): Queue {
    if q.verifying != [] && q.verifying[0].Tagged(work.hash) then
      var rest := q.(verifying := q.verifying[1..]);
      DrainVerified(
        if work.parent in q.knownBad
        then rest.(ready := q.ready - {work.hash}, knownBad := q.knownBad + {work.hash})
        else rest.(verified := q.verified + [work]))
    else
      var i := FindSlot(q.verifying, work.hash);
      if i < |q.verifying| then q.(verifying := q.verifying[i := Done(work)]) else q
  }

  // ---------- import, tick, drain ----------

  datatype ImportResult =
    | Success | UnknownParent | FutureTimeKnown | FutureTimeUnknown
    | AlreadyInChain | AlreadyKnown | Malformed | BadChain

  /** `chain` is the set of hashes the chain knows at the time of the call, `wellFormed` the outcome of verifyBlock. */
  datatype Arrival = Arrival(block: Block, wellFormed: bool, ours: bool, now: nat, chain: set<Hash>)

  predicate ParentKnown(q: Queue, a: Arrival) {
    a.block.parent in q.ready || a.block.parent in q.draining || a.block.parent in a.chain
  }

  function Outcome(q: Queue, a: Arrival): ImportResult {
    var h := a.block.hash;
    if h in q.ready || h in q.draining || h in q.unknownSet || h in q.knownBad then AlreadyKnown
    else if !a.wellFormed then Malformed
    else if h in a.chain then AlreadyInChain
    else if a.block.time > a.now && !a.ours then (if ParentKnown(q, a) then FutureTimeKnown else FutureTimeUnknown)
    else if a.block.parent in q.knownBad then BadChain
    else if !ParentKnown(q, a) then UnknownParent
    else Success
  }

  function Import(q: Queue, a: Arrival): Queue {
    var b := a.block;
    match Outcome(q, a)
    case AlreadyKnown | Malformed | AlreadyInChain => q
    case FutureTimeKnown | FutureTimeUnknown =>
      Postponed(q, b)
    case BadChain =>
      UpdateBad(q.(knownBad := q.knownBad + {b.hash}), b.hash)
    case UnknownParent =>
      Parked(q, b)
    case Success =>
      NoteReady(Enqueue(q, b), [b.hash])
  }

  function Postponed(q: Queue, b: Block): Queue {
    q.(future := InsertByTime(q.future, b), unknownSize := q.unknownSize + b.size,
       unknownCount := q.unknownCount + 1, difficulty := q.difficulty + b.difficulty)
  }

  function Parked(q: Queue, b: Block): Queue {
    q.(unknown := q.unknown + [b], unknownSet := q.unknownSet + {b.hash},
       unknownSize := q.unknownSize + b.size, difficulty := q.difficulty + b.difficulty,
       unknownCount := q.unknownCount + 1)
  }

  function Enqueue(q: Queue, b: Block): Queue {
    q.(unverified := q.unverified + [b], ready := q.ready + {b.hash},
       knownSize := q.knownSize + b.size, difficulty := q.difficulty + b.difficulty,
       knownCount := q.knownCount + 1)
  }

  /** The future pool is ordered by the timestamp truncated to 32 bits, the multimap's key. */
  function Key(b: Block): nat {
    b.time % 0x1_0000_0000
  }

  /** Insertion behind every entry with the same or an earlier key. */
  function InsertByTime(s: seq<Block>, b: Block): seq<Block> {
    if s == [] || Key(b) < Key(s[0]) then [b] + s else [s[0]] + InsertByTime(s[1..], b)
  }

  /** The entries before the first one whose key is later than `now`. */
  function DueBy(s: seq<Block>, now: nat): (r: seq<Block>)
    ensures |r| <= |s| && r == s[..|r|]
  {
    if s == [] || Key(s[0]) > now then [] else [s[0]] + DueBy(s[1..], now)
  }

  /** The clock is compared with the first key as it is, and with the others, like the keys, in 32 bits. */
  function DueNow(q: Queue, now: nat): (r: seq<Block>)
    ensures |r| <= |q.future| && r == q.future[..|r|]
  {
    if q.future == [] || now < Key(q.future[0]) then [] else DueBy(q.future, now % 0x1_0000_0000)
  }

  /** tick's locked section: due blocks leave the pool (they are then imported one by one). */
  function Tick(q: Queue, now: nat): Queue {
    var due := DueNow(q, now);
    q.(future := q.future[|due|..], unknownSize := q.unknownSize - Size(due), unknownCount := q.unknownCount - |due|)
  }

  function Batch(q: Queue, max: nat): seq<Block> {
    if q.draining != {} then []
    else q.verified[..if max <= |q.verified| then max else |q.verified|]
  }

  function Drain(q: Queue, max: nat): Queue {
    if q.draining != {} then q
    else
      var out := Batch(q, max);
      q.(verified := q.verified[|out|..], draining := Hashes(out), drainingDifficulty := Work(out),
         ready := q.ready - Hashes(out), knownSize := q.knownSize - Size(out), knownCount := q.knownCount - |out|)
  }

  function DoneDrain(q: Queue, bads: seq<Hash>): Queue {
    var q' := q.(draining := {}, difficulty := q.difficulty - q.drainingDifficulty, drainingDifficulty := 0,
                 knownBad := q.knownBad + set h | h in bads);
    UpdateBadAll(q', bads)
  }
}
