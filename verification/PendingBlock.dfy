/**
  A block under construction: transactions are executed on it, it is committed to sealing, which applies the
  rewards, and going back to executing takes them away again.
 */
module PendingBlock {
  import opened Accounts
  import opened Execution
  import opened ExecutionSafety
  import opened BlockTree
  import U = Uncles
  import opened Rewards

  /** What is fixed from one reset of the block to the next. */
  datatype Site = Site(author: Address, number: nat, gasLimit: nat, reward: nat, rules: Rules)

  datatype Pending = Pending(state: World, precommit: World, transactions: seq<Transaction>, gasUsed: nat,
                             uncles: seq<Hash>, committedToSeal: bool, isSealed: bool)

  function Fresh(base: World): Pending {
    Pending(base, base, [], 0, [], false, false)
  }

  function Paid(w: World, site: Site, hs: U.Headers, us: seq<Hash>): World {
    Settled(ApplyRewards(w, hs, us, site.author, site.number, site.reward, site.rules.startNonce))
  }

  function Uncommit(b: Pending): Pending {
    if b.committedToSeal then b.(state := b.precommit, committedToSeal := false) else b
  }

  function Commit(b: Pending, site: Site, hs: U.Headers, us: seq<Hash>): Pending {
    if b.isSealed then b
    else
      var base := if b.committedToSeal then b.precommit else b.state;
      b.(precommit := base, state := Paid(base, site, hs, us), uncles := us, committedToSeal := true)
  }

  /** A transaction that is refused, or only tried out, leaves nothing but the block uncommitted. */
  function Execute(b: Pending, site: Site, t: Transaction, permanent: bool): Pending {
    if b.isSealed then b
    else
      var u := Uncommit(b);
      var env := BlockEnv(site.author, site.gasLimit, u.gasUsed);
      if permanent && Initialize(t, env, u.state, site.rules).Accepted? then
        var l := ExecuteOn(Ledger(u.state, u.gasUsed), t, site.author, site.gasLimit, site.rules);
        u.(state := l.world, gasUsed := l.gasUsed, transactions := u.transactions + [t])
      else u
  }

  /** Sealing succeeds on a committed block if the sealed header is the block's. */
  function Seal(b: Pending, matches: bool): Pending {
    if b.committedToSeal && matches then b.(state := b.precommit, isSealed := true) else b
  }

  datatype Event = Commits(uncles: seq<Hash>) | Executes(transaction: Transaction, permanent: bool) | Seals(matches: bool)

  function StepOf(b: Pending, site: Site, hs: U.Headers, e: Event): Pending {
    match e
    case Commits(us) => Commit(b, site, hs, us)
    case Executes(t, permanent) => Execute(b, site, t, permanent)
    case Seals(matches) => Seal(b, matches)
  }

  function After(b: Pending, site: Site, hs: U.Headers, events: seq<Event>): Pending
    decreases |events|
  {
    if events == [] then b else After(StepOf(b, site, hs, events[0]), site, hs, events[1..])
  }

  /** The base state with a block's transactions executed on it, in order. */
  function Executed(base: World, site: Site, ts: seq<Transaction>): Ledger {
    ExecuteAll(Ledger(base, 0), ts, site.author, site.gasLimit, site.rules)
  }

  /** The executed transactions, and on top of them the rewards once if committed but not sealed, else not at all. */
  predicate Exact(b: Pending, base: World, site: Site, hs: U.Headers) {
    var l := Executed(base, site, b.transactions);
    && b.gasUsed == l.gasUsed && (b.isSealed ==> b.committedToSeal) && (b.committedToSeal ==> b.precommit == l.world)
    && b.state == if b.committedToSeal && !b.isSealed then Paid(l.world, site, hs, b.uncles) else l.world
  }

  lemma {:induction false} ExecuteAllAppend(l: Ledger, ts: seq<Transaction>, t: Transaction, site: Site)
    ensures ExecuteAll(l, ts + [t], site.author, site.gasLimit, site.rules)
            == ExecuteOn(ExecuteAll(l, ts, site.author, site.gasLimit, site.rules), t, site.author, site.gasLimit, site.rules)
    decreases |ts|
  {
    hide ExecuteOn;
    if ts == [] {
      assert ExecuteAll(ExecuteOn(l, t, site.author, site.gasLimit, site.rules), [], site.author, site.gasLimit, site.rules)
          == ExecuteOn(l, t, site.author, site.gasLimit, site.rules);
      assert ([] + [t])[1..] == [];
    } else {
      assert (ts + [t])[1..] == ts[1..] + [t];
      ExecuteAllAppend(ExecuteOn(l, ts[0], site.author, site.gasLimit, site.rules), ts[1..], t, site);
    }
  }

  lemma StepExact(b: Pending, base: World, site: Site, hs: U.Headers, e: Event)
    requires Exact(b, base, site, hs)
    ensures Exact(StepOf(b, site, hs, e), base, site, hs)
  {
    hide ExecuteAll, ExecuteOn, Initialize, Paid;
    if e.Executes? { ExecuteAllAppend(Ledger(base, 0), b.transactions, e.transaction, site); }
  }

  /** Whatever sequence of commits, executions and seals, the rewards are never on the state twice. */
  lemma {:induction false} RewardsAtMostOnce(b: Pending, base: World, site: Site, hs: U.Headers, events: seq<Event>)
    requires Exact(b, base, site, hs)
    ensures Exact(After(b, site, hs, events), base, site, hs)
    decreases |events|
  {
    hide Exact, StepOf;
    if events != [] {
      StepExact(b, base, site, hs, events[0]);
      RewardsAtMostOnce(StepOf(b, site, hs, events[0]), base, site, hs, events[1..]);
    }
  }

  lemma FreshExact(base: World, site: Site, hs: U.Headers)
    ensures Exact(Fresh(base), base, site, hs)
  {
  }

  predicate AllCitable(hs: U.Headers, site: Site, events: seq<Event>) {
    forall i :: 0 <= i < |events| && events[i].Commits? ==> Citable(hs, events[i].uncles, site.number)
  }

  lemma {:induction false} UnclesStayCitable(b: Pending, site: Site, hs: U.Headers, events: seq<Event>)
    requires AllCitable(hs, site, events) && Citable(hs, b.uncles, site.number)
    ensures Citable(hs, After(b, site, hs, events).uncles, site.number)
    decreases |events|
  {
    hide Citable, Paid, ExecuteOn, Initialize;
    if events != [] { UnclesStayCitable(StepOf(b, site, hs, events[0]), site, hs, events[1..]); }
  }

  /** However often it is committed again, a block never holds more than 45/16 rewards above its base state. */
  lemma SupplyWithinOneReward(base: World, site: Site, hs: U.Headers, events: seq<Event>)
    requires AllCitable(hs, site, events) && 8 * site.reward < WORD && Total(base) + 3 * site.reward < WORD
    ensures 16 * Total(After(Fresh(base), site, hs, events).state) <= 16 * Total(base) + 45 * site.reward
    ensures After(Fresh(base), site, hs, events).gasUsed <= site.gasLimit
  {
    hide Total, ExecuteAll, ApplyRewards, Minted, Settled;
    var b := After(Fresh(base), site, hs, events);
    FreshExact(base, site, hs);
    RewardsAtMostOnce(Fresh(base), base, site, hs, events);
    UnclesStayCitable(Fresh(base), site, hs, events);
    BlockWithinLimits(Ledger(base, 0), b.transactions, site.author, site.gasLimit, site.rules);
    var w := Executed(base, site, b.transactions).world;
    MintedBound(hs, b.uncles, site.number, site.reward);
    RewardsTotal(w, hs, b.uncles, site.author, site.number, site.reward, site.rules.startNonce);
    var paid := ApplyRewards(w, hs, b.uncles, site.author, site.number, site.reward, site.rules.startNonce);
    TotalSame(paid, Settled(paid));
  }

  class Block {
    const site: Site
    var state: World
    var precommit: World
    var transactions: seq<Transaction>
    var gasUsed: nat
    var currentUncles: seq<Hash>
    var committedToSeal: bool
    var isSealed: bool

    ghost function View(): Pending
      reads this
    {
      Pending(state, precommit, transactions, gasUsed, currentUncles, committedToSeal, isSealed)
    }

    constructor (base: World, s: Site)
      ensures site == s && View() == Fresh(base)
    {
      site := s;
      state, precommit := base, base;
      transactions, gasUsed, currentUncles := [], 0, [];
      committedToSeal, isSealed := false, false;
    }

    method UncommitToSeal()
      modifies this`state, this`committedToSeal
      ensures View() == Uncommit(old(View()))
    {
      if committedToSeal {
        state := precommit;
        committedToSeal := false;
      }
    }

    method PayRewards(hs: U.Headers, us: seq<Hash>)
      modifies this`state
      ensures state == ApplyRewards(old(state), hs, us, site.author, site.number, site.reward, site.rules.startNonce)
    {
      hide AddBalance, UncleReward, Wrap;
      var r := site.reward;
      for i := 0 to |us|
        invariant r == AuthorReward(site.reward, i)
        invariant PayUncles(state, hs, us[i..], site.number, site.reward, site.rules.startNonce)
               == PayUncles(old(state), hs, us, site.number, site.reward, site.rules.startNonce)
      {
        var u := hs(us[i]);
        state := AddBalance(state, u.author, UncleReward(site.reward, u.number, site.number), site.rules.startNonce);
        assert us[i..][1..] == us[i + 1..];
        r := Wrap(r + site.reward / 32);
      }
      state := AddBalance(state, site.author, r, site.rules.startNonce);
    }

    /** Picks uncles and applies the rewards; false if the block is sealed already. */
    method CommitToSeal(f: U.Family, hs: U.Headers, children: map<Hash, seq<Hash>>, cur: U.Current) returns (ok: bool)
      requires U.Consistent(f, hs) && U.ChildrenOk(f, children) && cur.parent in f.tree && cur.hash !in f.tree
      requires site.number == U.NumberOf(f, cur)
      modifies this
      ensures ok == !old(isSealed)
      ensures ok ==> currentUncles == U.FirstTwo(U.Candidates(f, children, cur, 1)) && Citable(hs, currentUncles, site.number)
      ensures ok ==> (U.MayCite(f, hs, cur, currentUncles) <==> !U.PicksTwice(f, children, cur, 1))
      ensures View() == Commit(old(View()), site, hs, currentUncles)
    {
      hide U.Consistent, U.ChildrenOk, U.MayCite, U.Candidates, U.IsUncle, U.PicksTwice, ApplyRewards, Citable;
      if isSealed { return false; }
      if committedToSeal {
        UncommitToSeal();
      } else {
        precommit := state;
      }
      currentUncles := U.PickUncles(f, hs, children, cur);
      UnclesCitable(f, hs, cur, currentUncles);
      PayRewards(hs, currentUncles);
      state := Settled(state);
      committedToSeal := true;
      ok := true;
    }

    method ExecuteTransaction(t: Transaction, permanent: bool) returns (ok: bool)
      modifies this
      ensures View() == Execute(old(View()), site, t, permanent)
      ensures ok <==> !old(isSealed) && Initialize(t, BlockEnv(site.author, site.gasLimit, old(gasUsed)), Uncommit(old(View())).state, site.rules).Accepted?
    {
      hide Initialize, Transact;
      if isSealed { return false; }
      UncommitToSeal();
      var env := BlockEnv(site.author, site.gasLimit, gasUsed);
      ok := Initialize(t, env, state, site.rules).Accepted?;
      if ok && permanent {
        var receipt := Transact(t, env, state, site.rules);
        state := Settled(receipt.world);
        gasUsed := gasUsed + receipt.gasUsed;
        transactions := transactions + [t];
      }
    }

    method SealBlock(matches: bool) returns (ok: bool)
      modifies this`state, this`isSealed
      ensures ok == (old(committedToSeal) && matches) && View() == Seal(old(View()), matches)
    {
      if !committedToSeal { return false; }
      if !matches { return false; }
      state := precommit;
      isSealed := true;
      ok := true;
    }
  }
}
