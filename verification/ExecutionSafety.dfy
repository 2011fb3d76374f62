/**
  What every execution keeps: money, gas, and the isolation of frames that throw.
 */
module ExecutionSafety {
  import opened Accounts
  import opened Execution

  // ---------- conservation of money ----------

  lemma SuicideTotal(w: World, me: Address, heir: Address, startNonce: nat)
    requires me in w && Total(w) < WORD
    ensures Total(SuicideTo(w, me, heir, startNonce)) + (if heir == me then w[me].balance else 0) == Total(w)
  {
    var w1 := AddBalance(w, heir, w[me].balance, startNonce);
    var w2 := SuicideTo(w, me, heir, startNonce);
    if heir == me {
      TotalAfterUpdate(w, w2, me);
    } else {
      var w0 := SubBalance(w, me, w[me].balance);
      SubBalanceTotal(w, me, w[me].balance);
      AddBalanceTotal(w0, heir, w[me].balance, startNonce);
      assert w2 == AddBalance(w0, heir, w[me].balance, startNonce);
    }
  }

  lemma StoreTotal(w: World, a: Address, key: nat, value: nat)
    requires a in w
    ensures Total(SetStore(w, a, key, value)) == Total(w)
  {
    TotalSame(w, SetStore(w, a, key, value));
  }

  lemma ConceiveTotal(w: World, a: Address, startNonce: nat)
    ensures Total(Conceive(w, a, startNonce)) == Total(w)
  {
    TotalSame(w, Conceive(w, a, startNonce));
  }

  /** Whatever a frame does, including nested frames, money only disappears by being burned. */
  lemma {:induction false} ExecConserves(run: Run, f: Frame, w: World, gas: nat, sub: SubState, rules: Rules)
    requires f.me in w && f.caller in w && Total(w) < WORD
    ensures var o := Exec(run, f, w, gas, sub, rules);
      Total(o.world) + o.sub.burned == Total(w) + sub.burned && Total(o.world) < WORD
    decreases run, 1
  {
    hide Total, SuicideTo, Perform;
    match run
    case Throw =>
    case Stop(_) =>
    case Suicide(heir, cost) =>
      if gas >= cost { SuicideTotal(w, f.me, heir, rules.startNonce); }
    case Step(op, rest) =>
      if gas >= CostOf(op) {
        PerformConserves(op, f, w, gas - CostOf(op), sub, rules);
        var p := Perform(op, f, w, gas - CostOf(op), sub, rules);
        ExecConserves(rest, f, p.world, p.gas, p.sub, rules);
      }
  }

  lemma {:induction false} PerformConserves(op: Op, f: Frame, w: World, left: nat, sub: SubState, rules: Rules)
    requires f.me in w && f.caller in w && Total(w) < WORD
    ensures var p := Perform(op, f, w, left, sub, rules);
      Total(p.world) + p.sub.burned == Total(w) + sub.burned && Total(p.world) < WORD
    decreases op, 3
  {
    hide Total, NestedCall, CreateFrame, NoteSending, SetStore;
    match op
    case Spend(_) =>
    case Store(key, value, _, refund) => StoreTotal(w, f.me, key, value);
    case Log(entry, _) =>
    case Call(_, _, _, _, _, _, _) =>
      if w[f.me].balance >= TransferOf(op) && f.depth < DEPTH_LIMIT {
        NestedCallConserves(op, f, w, rules);
      }
    case Create(endowment, address, _, init) =>
      if w[f.me].balance >= endowment && f.depth < DEPTH_LIMIT {
        var w1 := NoteSending(w, f.me, rules.startNonce);
        TotalSame(w, w1);
        assert Balance(w1, f.me) == Balance(w, f.me);
        CreateConserves(init, f.me, endowment, left, address, f.depth + 1, w1, rules);
      }
  }

  lemma {:induction false} NestedCallConserves(op: Op, f: Frame, w: World, rules: Rules)
    requires op.Call? && f.me in w && f.caller in w && w[f.me].balance >= TransferOf(op) && Total(w) < WORD
    ensures var r := NestedCall(op, f, w, rules);
      Total(r.world) + r.sub.burned == Total(w) && Total(r.world) < WORD
    decreases op, 1
  {
    hide Total;
    var sender := if op.kind.DelegateCall? then f.caller else f.me;
    var receiver := if op.kind.PlainCall? then op.target else f.me;
    CallConserves(op.body, sender, receiver, op.target, TransferOf(op), ForwardedGas(op), op.native, f.depth + 1, w, rules);
  }

  lemma {:induction false} CallConserves(body: Run, sender: Address, receiver: Address, codeAddress: Address, value: nat,
                                         gas: nat, native: Native, depth: nat, w: World, rules: Rules)
    requires sender in w && w[sender].balance >= value && Total(w) < WORD
    ensures var r := CallFrame(body, sender, receiver, codeAddress, value, gas, native, depth, w, rules);
      Total(r.world) + r.sub.burned == Total(w) && Total(r.world) < WORD
    decreases body, 2
  {
    hide Total, Exec;
    TransferTotal(w, sender, receiver, value, rules.startNonce);
    var w1 := Transfer(w, sender, receiver, value, rules.startNonce);
    ExecConserves(body, Frame(receiver, sender, depth), w1, gas, NO_SUBSTATE, rules);
  }

  lemma {:induction false} CreateConserves(init: Init, sender: Address, endowment: nat, gas: nat, address: Address,
                                           depth: nat, w: World, rules: Rules)
    requires sender in w && w[sender].balance >= endowment && Total(w) < WORD
    ensures var r := CreateFrame(init, sender, endowment, gas, address, depth, w, rules);
      Total(r.world) + r.sub.burned == Total(w) && Total(r.world) < WORD
    decreases init, 2
  {
    hide Total, Exec;
    ConceiveTotal(w, address, rules.startNonce);
    TransferTotal(Conceive(w, address, rules.startNonce), sender, address, endowment, rules.startNonce);
    var w1 := Transfer(Conceive(w, address, rules.startNonce), sender, address, endowment, rules.startNonce);
    match init
    case NoInit =>
      TotalSame(w1, SetCode(w1, address, []));
    case InitCode(run) =>
      ExecConserves(run, Frame(address, sender, depth), w1, gas, NO_SUBSTATE, rules);
      var o := Exec(run, Frame(address, sender, depth), w1, gas, NO_SUBSTATE, rules);
      TotalSame(o.world, SetCode(o.world, address, o.output));
      TotalSame(o.world, SetCode(o.world, address, []));
  }

  lemma UpfrontTotal(t: Transaction, w: World, rules: Rules)
    requires Balance(w, t.sender) >= t.value + t.gas * t.gasPrice
    ensures Total(PayUpfront(t, w, rules)) + t.gas * t.gasPrice == Total(w)
  {
    var w1 := NoteSending(w, t.sender, rules.startNonce);
    TotalSame(w, w1);
    SubBalanceTotal(w1, t.sender, t.gas * t.gasPrice);
  }

  lemma FeesAddUp(gas: nat, left: nat, price: nat)
    requires left <= gas
    ensures left * price + (gas - left) * price == gas * price
  {
  }

  lemma FeesTotal(t: Transaction, author: Address, r: Reply, rules: Rules)
    requires r.gas <= t.gas && Total(r.world) + t.gas * t.gasPrice < WORD
    ensures Total(PayFees(t, author, r, rules)) == Total(r.world) + t.gas * t.gasPrice
  {
    hide Total;
    var left := GasLeft(t, r);
    FeesAddUp(t.gas, left, t.gasPrice);
    AddBalanceTotal(r.world, t.sender, left * t.gasPrice, rules.startNonce);
    AddBalanceTotal(AddBalance(r.world, t.sender, left * t.gasPrice, rules.startNonce),
                    author, (t.gas - left) * t.gasPrice, rules.startNonce);
  }

  /** The reply of the transaction's outermost frame. */
  function ReplyOf(t: Transaction, env: BlockEnv, w: World, rules: Rules): (r: Reply)
    requires Initialize(t, env, w, rules).Accepted?
    ensures r.gas <= t.gas
  {
    RunAction(t, PayUpfront(t, w, rules), rules)
  }

  /** What the accounts killed at the end held, fees included. */
  ghost function KilledWith(t: Transaction, env: BlockEnv, w: World, rules: Rules): nat
    requires Initialize(t, env, w, rules).Accepted?
  {
    var r := ReplyOf(t, env, w, rules);
    Held(PayFees(t, env.author, r, rules), r.sub.suicides)
  }

  /**
    One transaction, whatever tree of calls and creations it runs: the balances after, plus what the
    killed accounts held, plus what self-suicides burned, equal the balances before. No balance wraps.
   */
  lemma TransactConserves(t: Transaction, env: BlockEnv, w: World, rules: Rules)
    requires Initialize(t, env, w, rules).Accepted? && Total(w) < WORD
    ensures var c := Transact(t, env, w, rules);
      && Total(c.world) + KilledWith(t, env, w, rules) + c.sub.burned == Total(w)
      && (forall a :: Balance(c.world, a) < WORD)
  {
    hide Total, PayUpfront, PayFees, CallFrame, CreateFrame, GasLeft;
    UpfrontTotal(t, w, rules);
    var w1 := PayUpfront(t, w, rules);
    match t.action {
      case CallTo(target, native, body) =>
        CallConserves(body, t.sender, target, target, t.value, t.gas - t.baseGas, native, 0, w1, rules);
      case NewContract(address, init) =>
        CreateConserves(init, t.sender, t.value, t.gas - t.baseGas, address, 0, w1, rules);
    }
    var r := RunAction(t, w1, rules);
    FeesTotal(t, env.author, r, rules);
    KillTotal(PayFees(t, env.author, r, rules), r.sub.suicides);
    var c := Transact(t, env, w, rules);
    forall a ensures Balance(c.world, a) < WORD { BalanceBounded(c.world, a); }
  }

  // ---------- failing frames and failing transactions ----------

  predicate SameElsewhere(w: World, w': World, except: set<Address>) {
    && w'.Keys - except == w.Keys - except
    && (forall a :: a in w.Keys - except ==> w'[a] == w[a])
  }

  /** To the caller, a call that failed is a call that only cost gas: no effect, log, refund or suicide remains. */
  lemma FailedNestedCall(op: Op, rest: Run, f: Frame, w: World, gas: nat, sub: SubState, rules: Rules)
    requires op.Call? && f.me in w && f.caller in w && gas >= CostOf(op)
    requires w[f.me].balance >= TransferOf(op) && f.depth < DEPTH_LIMIT
    requires NestedCall(op, f, w, rules).excepted
    ensures Exec(Step(op, rest), f, w, gas, sub, rules) == Exec(rest, f, w, gas - CostOf(op), sub, rules)
  {
    assert NestedCall(op, f, w, rules) == Reply(w, 0, NO_SUBSTATE, true);
    assert Accrue(sub, NO_SUBSTATE) == sub;
  }

  /** A creation that failed leaves only the creator's nonce behind, and takes all the gas that was left. */
  lemma FailedNestedCreate(op: Op, rest: Run, f: Frame, w: World, gas: nat, sub: SubState, rules: Rules)
    requires op.Create? && f.me in w && f.caller in w && gas >= CostOf(op)
    requires w[f.me].balance >= op.endowment && f.depth < DEPTH_LIMIT
    requires var w1 := NoteSending(w, f.me, rules.startNonce);
      CreateFrame(op.init, f.me, op.endowment, gas - CostOf(op), op.address, f.depth + 1, w1, rules).excepted
    ensures Exec(Step(op, rest), f, w, gas, sub, rules)
            == Exec(rest, f, NoteSending(w, f.me, rules.startNonce), 0, sub, rules)
  {
    var w1 := NoteSending(w, f.me, rules.startNonce);
    assert CreateFrame(op.init, f.me, op.endowment, gas - CostOf(op), op.address, f.depth + 1, w1, rules)
        == Reply(w1, 0, NO_SUBSTATE, true);
    assert Accrue(sub, NO_SUBSTATE) == sub;
  }

  function AccountOf(w: World, a: Address, startNonce: nat): Account {
    if a in w then w[a] else FreshAccount(startNonce, 0)
  }

  /** From w to w', the sender's nonce went up and `price` moved from the sender to the author; nothing else changed. */
  predicate OnlyFeesMoved(w: World, w': World, sender: Address, author: Address, price: nat, startNonce: nat) {
    var s, a := AccountOf(w, sender, startNonce), AccountOf(w, author, startNonce);
    && SameElsewhere(w, w', {sender, author})
    && sender in w' && author in w' && s.balance >= price
    && (sender != author ==>
          && w'[sender] == s.(nonce := (s.nonce + 1) % WORD, balance := s.balance - price)
          && w'[author] == a.(balance := a.balance + price))
    && (sender == author ==> w'[sender] == s.(nonce := (s.nonce + 1) % WORD))
  }

  lemma FeesMove(w: World, sender: Address, author: Address, price: nat, startNonce: nat)
    requires Balance(w, sender) >= price
    requires var w1 := SubBalance(NoteSending(w, sender, startNonce), sender, price);
      Balance(AddBalance(w1, author, price, startNonce), author) == Balance(w1, author) + price
    ensures var w1 := SubBalance(NoteSending(w, sender, startNonce), sender, price);
      OnlyFeesMoved(w, AddBalance(w1, author, price, startNonce), sender, author, price, startNonce)
  {
  }

  /** The price of the whole gas allowance. */
  function Allowance(t: Transaction): nat {
    t.gas * t.gasPrice
  }

  /**
    A transaction whose outermost frame throws changes nothing but the sender's nonce, the sender's balance
    by the whole gas allowance, and the author's balance by the same amount; it leaves no logs.
   */
  lemma FailedTransaction(t: Transaction, env: BlockEnv, w: World, rules: Rules)
    requires Initialize(t, env, w, rules).Accepted? && Total(w) < WORD
    requires Transact(t, env, w, rules).excepted
    ensures var c := Transact(t, env, w, rules);
      && OnlyFeesMoved(w, c.world, t.sender, env.author, Allowance(t), rules.startNonce)
      && c.gasUsed == t.gas && c.logs == []
  {
    hide Total, OnlyFeesMoved, NoteSending, AddBalance, SubBalance, RunAction, PayFees, GasLeft, Balance;
    var w1 := PayUpfront(t, w, rules);
    var r := RunAction(t, w1, rules);
    FailedRun(t, w1, rules);
    UpfrontTotal(t, w, rules);
    FailedFees(t, env, w1, rules);
    assert Transact(t, env, w, rules).world == PayFees(t, env.author, r, rules);
    FeesMove(w, t.sender, env.author, t.gas * t.gasPrice, rules.startNonce);
  }

  lemma FailedRun(t: Transaction, w: World, rules: Rules)
    requires t.baseGas <= t.gas && t.sender in w && w[t.sender].balance >= t.value && RunAction(t, w, rules).excepted
    ensures RunAction(t, w, rules) == Reply(w, 0, NO_SUBSTATE, true)
  {
  }

  lemma FailedFees(t: Transaction, env: BlockEnv, w1: World, rules: Rules)
    requires t.sender in w1 && Total(w1) + t.gas * t.gasPrice < WORD
    ensures var r := Reply(w1, 0, NO_SUBSTATE, true);
      && GasLeft(t, r) == 0
      && PayFees(t, env.author, r, rules) == AddBalance(w1, env.author, t.gas * t.gasPrice, rules.startNonce)
      && Balance(AddBalance(w1, env.author, t.gas * t.gasPrice, rules.startNonce), env.author)
         == Balance(w1, env.author) + t.gas * t.gasPrice
  {
    hide Total, GasLeft, AddBalance;
    NothingRefunded(t, Reply(w1, 0, NO_SUBSTATE, true));
    BalanceBounded(w1, t.sender);
    NothingAdded(w1, t.sender, 0 * t.gasPrice, rules.startNonce);
    AddBalanceTotal(w1, env.author, t.gas * t.gasPrice, rules.startNonce);
  }

  lemma NothingRefunded(t: Transaction, r: Reply)
    requires r.gas == 0 && r.sub == NO_SUBSTATE
    ensures GasLeft(t, r) == 0
  {
  }

  lemma NothingAdded(w: World, a: Address, nothing: nat, startNonce: nat)
    requires a in w && w[a].balance < WORD && nothing == 0
    ensures AddBalance(w, a, nothing, startNonce) == w
  {
  }

  // ---------- whole blocks ----------

  /** The transactions of a block, in order; a refused one leaves the block as it is, others are committed. */
  datatype Ledger = Ledger(world: World, gasUsed: nat)

  function ExecuteOn(l: Ledger, t: Transaction, author: Address, gasLimit: nat, rules: Rules): Ledger {
    var env := BlockEnv(author, gasLimit, l.gasUsed);
    if Initialize(t, env, l.world, rules).Accepted? then
      var c := Transact(t, env, l.world, rules);
      Ledger(Settled(c.world), l.gasUsed + c.gasUsed)
    else l
  }

  function ExecuteAll(l: Ledger, ts: seq<Transaction>, author: Address, gasLimit: nat, rules: Rules): Ledger
    decreases |ts|
  {
    if ts == [] then l else ExecuteAll(ExecuteOn(l, ts[0], author, gasLimit, rules), ts[1..], author, gasLimit, rules)
  }

  /** Over any list of transactions the cumulative gas stays within the limit and no money is created. */
  lemma {:induction false} BlockWithinLimits(l: Ledger, ts: seq<Transaction>, author: Address, gasLimit: nat, rules: Rules)
    requires l.gasUsed <= gasLimit && Total(l.world) < WORD
    ensures var l' := ExecuteAll(l, ts, author, gasLimit, rules);
      l.gasUsed <= l'.gasUsed <= gasLimit && Total(l'.world) <= Total(l.world)
    decreases |ts|
  {
    hide Total, Transact, Initialize;
    if ts != [] {
      var env := BlockEnv(author, gasLimit, l.gasUsed);
      if Initialize(ts[0], env, l.world, rules).Accepted? {
        TransactConserves(ts[0], env, l.world, rules);
        GasWithinLimit(ts[0], env, l.world, rules);
        TotalSame(Transact(ts[0], env, l.world, rules).world, Settled(Transact(ts[0], env, l.world, rules).world));
      }
      BlockWithinLimits(ExecuteOn(l, ts[0], author, gasLimit, rules), ts[1..], author, gasLimit, rules);
    }
  }

  lemma GasWithinLimit(t: Transaction, env: BlockEnv, w: World, rules: Rules)
    requires Initialize(t, env, w, rules).Accepted?
    ensures Transact(t, env, w, rules).gasUsed <= t.gas
    ensures env.gasUsed + Transact(t, env, w, rules).gasUsed <= env.gasLimit
    ensures 2 * Transact(t, env, w, rules).gasUsed >= t.baseGas
  {
  }

  // ---------- contracts under construction ----------

  predicate Conceiving(w: World, a: Address) {
    a in w && w[a].conceiving
  }

  /** A contract whose construction has begun stays under construction whatever its init code runs. */
  lemma {:induction false} ExecKeepsConceiving(run: Run, f: Frame, w: World, gas: nat, sub: SubState, rules: Rules, a: Address)
    requires f.me in w && f.caller in w && Conceiving(w, a)
    ensures Conceiving(Exec(run, f, w, gas, sub, rules).world, a)
    decreases run, 1
  {
    hide Perform;
    if run.Step? && gas >= CostOf(run.op) {
      PerformKeepsConceiving(run.op, f, w, gas - CostOf(run.op), sub, rules, a);
      var p := Perform(run.op, f, w, gas - CostOf(run.op), sub, rules);
      ExecKeepsConceiving(run.rest, f, p.world, p.gas, p.sub, rules, a);
    }
  }

  lemma {:induction false} PerformKeepsConceiving(op: Op, f: Frame, w: World, left: nat, sub: SubState, rules: Rules, a: Address)
    requires f.me in w && f.caller in w && Conceiving(w, a)
    ensures Conceiving(Perform(op, f, w, left, sub, rules).world, a)
    decreases op, 3
  {
    hide NestedCall, CreateFrame;
    if op.Call? && w[f.me].balance >= TransferOf(op) && f.depth < DEPTH_LIMIT {
      NestedKeepsConceiving(op, f, w, rules, a);
    } else if op.Create? && w[f.me].balance >= op.endowment && f.depth < DEPTH_LIMIT {
      var w1 := NoteSending(w, f.me, rules.startNonce);
      CreateKeepsConceiving(op.init, f.me, op.endowment, left, op.address, f.depth + 1, w1, rules, a);
    }
  }

  lemma {:induction false} NestedKeepsConceiving(op: Op, f: Frame, w: World, rules: Rules, a: Address)
    requires op.Call? && f.me in w && f.caller in w && w[f.me].balance >= TransferOf(op) && Conceiving(w, a)
    ensures Conceiving(NestedCall(op, f, w, rules).world, a)
    decreases op, 1
  {
    hide Exec;
    var sender := if op.kind.DelegateCall? then f.caller else f.me;
    var receiver := if op.kind.PlainCall? then op.target else f.me;
    var w1 := Transfer(w, sender, receiver, TransferOf(op), rules.startNonce);
    ExecKeepsConceiving(op.body, Frame(receiver, sender, f.depth + 1), w1, ForwardedGas(op), NO_SUBSTATE, rules, a);
  }

  lemma {:induction false} CreateKeepsConceiving(init: Init, sender: Address, endowment: nat, gas: nat, address: Address,
                                                 depth: nat, w: World, rules: Rules, a: Address)
    requires sender in w && w[sender].balance >= endowment && Conceiving(w, a)
    ensures Conceiving(CreateFrame(init, sender, endowment, gas, address, depth, w, rules).world, a)
    decreases init, 2
  {
    hide Exec;
    var w1 := Transfer(Conceive(w, address, rules.startNonce), sender, address, endowment, rules.startNonce);
    if init.InitCode? {
      ExecKeepsConceiving(init.run, Frame(address, sender, depth), w1, gas, NO_SUBSTATE, rules, a);
    }
  }
}
