/**
  The executive: calls and creations run against the shared, cached state, with a copy of the cache
  kept per frame so that a throwing frame can put it back. Proved to do what module Execution says.
 */
module ExecutiveObject {
  import opened Accounts
  import opened Execution
  import opened ExecutionSafety
  import opened AccountState

  /** In the middle of a transaction: nothing has been killed yet. */
  ghost predicate Running(s: State)
    reads s
  {
    s.Valid() && AllAlive(s.cache)
  }

  lemma BalanceFits(s: State, a: Address)
    requires Running(s)
    ensures Balance(s.View(), a) < WORD
  {
    hide Overlaid, ViewOf;
    ViewAt(s.cache, s.trie, a);
  }

  method TransferBetween(s: State, from: Address, to: Address, amount: nat)
    requires Running(s) && from in s.View() && s.View()[from].balance >= amount
    modifies s`cache
    ensures Running(s) && old(s.cache).Keys <= s.cache.Keys
    ensures s.View() == Transfer(old(s.View()), from, to, amount, s.startNonce)
  {
    hide ViewOf, Consistent, AddBalance, SubBalance;
    BalanceFits(s, from);
    var ok := s.SubFrom(from, amount);
    s.AddTo(to, amount);
  }

  /** A frame's window on the world. The cache is copied before anything the frame does. */
  class ExtVM {
    const state: State
    const origCache: Cache
    const me: Address
    const caller: Address
    const depth: nat
    var sub: SubState

    /** The copy can be put back: it is a running state with at least the entries that were cached. */
    ghost predicate CanRevert()
      reads state
    {
      Consistent(origCache, state.trie, state.db) && AllAlive(origCache)
    }

    ghost predicate Ready()
      reads this, state
    {
      && Running(state) && CanRevert()
      && me in state.cache && me in state.View() && caller in state.View()
    }

    constructor (state: State, me: Address, caller: Address, depth: nat)
      requires Running(state)
      modifies state`cache
      ensures this.state == state && this.me == me && this.caller == caller && this.depth == depth
      ensures origCache == old(state.cache) && sub == NO_SUBSTATE
      ensures Running(state) && CanRevert() && old(state.cache).Keys <= state.cache.Keys && me in state.cache
      ensures state.View() == if me in old(state.View()) then old(state.View())
                              else old(state.View())[me := FreshAccount(state.startNonce, 0)]
    {
      this.state, this.me, this.caller, this.depth := state, me, caller, depth;
      origCache, sub := state.cache, NO_SUBSTATE;
      new;
      hide ViewOf, Overlaid;
      ViewAt(state.cache, state.trie, me);
      state.EnsureCached(me, true, true);
    }

    method Revert()
      requires CanRevert()
      modifies state`cache, this`sub
      ensures state.cache == origCache && sub == NO_SUBSTATE && Running(state)
      ensures state.View() == ViewOf(origCache, state.trie)
    {
      state.cache := origCache;
      sub := NO_SUBSTATE;
    }

    method SetStoreHere(key: nat, value: nat)
      requires Ready()
      modifies state`cache
      ensures Ready() && state.cache.Keys == old(state.cache).Keys
      ensures state.View() == SetStore(old(state.View()), me, key, value)
    {
      hide ViewOf, Overlaid, Consistent;
      state.SetStorageAt(me, key, value);
    }

    method SuicideHere(heir: Address)
      requires Ready()
      modifies state`cache, this`sub
      ensures Ready() && old(state.cache).Keys <= state.cache.Keys
      ensures state.View() == SuicideTo(old(state.View()), me, heir, state.startNonce)
      ensures sub == old(sub).(suicides := old(sub).suicides + {me},
                               burned := old(sub).burned + (if heir == me then old(state.View())[me].balance else 0))
    {
      hide ViewOf, Overlaid, Consistent;
      BalanceFits(state, me);
      ghost var w := state.View();
      var mine := state.BalanceOf(me);
      state.AddTo(heir, mine);
      var now := state.BalanceOf(me);
      assert state.View()[me].balance == now;
      var ok := state.SubFrom(me, now);
      sub := sub.(suicides := sub.suicides + {me}, burned := sub.burned + (if heir == me then mine else 0));
    }
  }

  class Executive {
    const state: State
    const rules: Rules
    const depth: nat
    var gas: nat
    var excepted: bool
    var isCreation: bool
    var newAddress: Address
    var ext: ExtVM?

    constructor (state: State, rules: Rules, depth: nat)
      ensures this.state == state && this.rules == rules && this.depth == depth
      ensures gas == 0 && !excepted && ext == null
    {
      this.state, this.rules, this.depth := state, rules, depth;
      gas, excepted, isCreation, newAddress, ext := 0, false, false, 0, null;
    }

    /** Sets a call up; `done` means that there is no code to run. */
    method Call(sender: Address, receiver: Address, codeAddress: Address, value: nat, gasGiven: nat, native: Native)
      returns (done: bool)
      requires Running(state) && sender in state.View() && state.View()[sender].balance >= value
      requires rules.startNonce == state.startNonce && gas == 0 && !excepted && ext == null
      modifies this, state`cache
      ensures Running(state) && old(state.cache).Keys <= state.cache.Keys && !isCreation
      ensures done <==> native.Precompiled? || !HasCode(old(state.View()), codeAddress)
      ensures done ==> ext == null
      ensures done ==> forall body ::
        CallFrame(body, sender, receiver, codeAddress, value, gasGiven, native, depth, old(state.View()), rules)
        == Reply(state.View(), gas, NO_SUBSTATE, excepted)
      ensures !done ==> ext != null && fresh(ext)
      ensures !done ==> FrameSet(old(state.View()), old(state.cache).Keys, receiver, sender)
      ensures !done ==> state.View() == Transfer(old(state.View()), sender, receiver, value, rules.startNonce)
      ensures !done ==> gas == gasGiven && !excepted
    {
      hide ViewOf, Overlaid, Consistent, Exec;
      BalanceFits(state, sender);
      isCreation := false;
      if native.Precompiled? {
        if gasGiven < native.cost {
          excepted := true;
          return true;
        }
        gas := gasGiven - native.cost;
      } else {
        gas := gasGiven;
        var has := state.AddressHasCode(codeAddress);
        if has {
          var code := state.CodeAt(codeAddress);
          ext := new ExtVM(state, receiver, sender, depth);
        }
      }
      ghost var w := old(state.View());
      assert state.View() == w || state.View() == w[receiver := FreshAccount(state.startNonce, 0)];
      TransferForced(w, sender, receiver, value, state.startNonce);
      TransferBetween(state, sender, receiver, value);
      done := ext == null;
    }

    /** Sets a creation up; `done` means that there is no init code to run. */
    method Create(sender: Address, endowment: nat, gasGiven: nat, address: Address, init: Init) returns (done: bool)
      requires Running(state) && sender in state.View() && state.View()[sender].balance >= endowment
      requires rules.startNonce == state.startNonce && gas == 0 && !excepted && ext == null
      modifies this, state`cache
      ensures Running(state) && old(state.cache).Keys <= state.cache.Keys && isCreation && newAddress == address
      ensures done <==> init.NoInit?
      ensures done ==> ext == null
      ensures done ==>
        CreateFrame(init, sender, endowment, gasGiven, address, depth, old(state.View()), rules)
        == Reply(state.View(), gas, NO_SUBSTATE, excepted)
      ensures !done ==> ext != null && fresh(ext)
      ensures !done ==> FrameSet(old(state.View()), old(state.cache).Keys, address, sender)
      ensures !done ==> state.View() == Transfer(Conceive(old(state.View()), address, rules.startNonce), sender, address,
                                                 endowment, rules.startNonce)
      ensures !done ==> Conceiving(state.View(), address)
      ensures !done ==> gas == gasGiven && !excepted
    {
      hide ViewOf, Overlaid, Consistent, Exec;
      isCreation := true;
      newAddress := address;
      gas := gasGiven;
      if init.InitCode? {
        ext := new ExtVM(state, address, sender, depth);
      }
      ghost var w := old(state.View());
      state.ConceiveAt(address);
      assert state.View() == Conceive(w, address, state.startNonce);
      TransferBetween(state, sender, address, endowment);
      if init.NoInit? {
        FreshInCache(state, address);
        state.SetCodeAt(address, []);
      }
      done := ext == null;
    }

    /** Runs the frame that was set up; a throw reverts the cache and takes the gas. */
    method Go(run: Run, ghost before: World, ghost cached: set<Address>)
      requires ext != null && rules.startNonce == state.startNonce && !excepted
      requires FrameSet(before, cached, ext.me, ext.caller) && before.Keys <= state.View().Keys
      requires isCreation ==> ext.me == newAddress && Conceiving(state.View(), newAddress)
      modifies this`gas, this`excepted, this`newAddress, state`cache, ext`sub
      ensures Running(state) && cached * old(state.cache).Keys <= state.cache.Keys
      ensures Reply(state.View(), gas, ext.sub, excepted)
              == FrameReply(run, Frame(ext.me, ext.caller, depth), before, old(state.View()), old(gas), isCreation, rules)
      decreases run, 2
    {
      hide ViewOf, Overlaid, Consistent, Exec;
      var thrown, left, output := VmExec(run, ext, gas, rules);
      gas := left;
      if isCreation && !thrown {
        ExecKeepsConceiving(run, Frame(ext.me, ext.caller, depth), old(state.View()), old(gas), NO_SUBSTATE, rules, newAddress);
        if |output| * CREATE_DATA_GAS <= gas {
          gas := gas - |output| * CREATE_DATA_GAS;
        } else if rules.exceptionalFailedCodeDeposit {
          thrown := true;
        } else {
          output := [];
        }
        if !thrown {
          FreshInCache(state, newAddress);
          state.SetCodeAt(newAddress, output);
        }
      }
      if thrown {
        gas := 0;
        excepted := true;
        ext.Revert();
        if isCreation {
          newAddress := 0;
        }
      }
    }

    /** The frame that was set up runs for `me`, and its copy of the cache means `before`. */
    ghost predicate FrameSet(before: World, cached: set<Address>, me: Address, caller: Address)
      reads this, ext, state
    {
      && ext != null && ext.state == state && ext.me == me && ext.caller == caller && ext.depth == depth
      && ext.sub == NO_SUBSTATE && ext.Ready()
      && ViewOf(ext.origCache, state.trie) == before && cached <= ext.origCache.Keys
    }
  }

  /** What a frame with code replies: `before` is the world its caller gets back if it throws. */
  function FrameReply(run: Run, f: Frame, before: World, w: World, gas: nat, creation: bool, rules: Rules): Reply
    requires f.me in w && f.caller in w
  {
    var o := Exec(run, f, w, gas, NO_SUBSTATE, rules);
    if o.thrown then Reply(before, 0, NO_SUBSTATE, true)
    else if !creation then Reply(o.world, o.gas, o.sub, false)
    else
      var deposit := |o.output| * CREATE_DATA_GAS;
      if deposit <= o.gas then Reply(SetCode(o.world, f.me, o.output), o.gas - deposit, o.sub, false)
      else if rules.exceptionalFailedCodeDeposit then Reply(before, 0, NO_SUBSTATE, true)
      else Reply(SetCode(o.world, f.me, []), o.gas, o.sub, false)
  }

  /** The virtual machine's loop: performs the effects of a run one after the other. */
  method VmExec(run: Run, ext: ExtVM, gas: nat, rules: Rules) returns (thrown: bool, left: nat, output: Code)
    requires ext.Ready() && rules.startNonce == ext.state.startNonce
    modifies ext.state`cache, ext`sub
    ensures ext.Ready() && old(ext.state.cache).Keys <= ext.state.cache.Keys
    ensures Outcome(ext.state.View(), left, ext.sub, thrown, output)
            == Exec(run, Frame(ext.me, ext.caller, ext.depth), old(ext.state.View()), gas, old(ext.sub), rules)
    decreases run, 1
  {
    hide ViewOf, Overlaid, Consistent, Perform, SuicideTo;
    ghost var f := Frame(ext.me, ext.caller, ext.depth);
    var at := run;
    left, output, thrown := gas, [], false;
    while at.Step?
      invariant ext.Ready() && old(ext.state.cache).Keys <= ext.state.cache.Keys
      invariant at == run || at < run
      invariant Exec(at, f, ext.state.View(), left, ext.sub, rules)
                == Exec(run, f, old(ext.state.View()), gas, old(ext.sub), rules)
      decreases at
    {
      var op, rest := at.op, at.rest;
      if left < CostOf(op) {
        thrown := true;
        return;
      }
      left := PerformOp(op, ext, left - CostOf(op), rules);
      at := rest;
    }
    match at {
      case Throw =>
        thrown := true;
      case Stop(out) =>
        output := out;
      case Suicide(heir, cost) =>
        if left < cost {
          thrown := true;
        } else {
          left := left - cost;
          ext.SuicideHere(heir);
        }
    }
  }

  /** One instruction, already paid for. */
  method PerformOp(op: Op, ext: ExtVM, left: nat, rules: Rules) returns (after: nat)
    requires ext.Ready() && rules.startNonce == ext.state.startNonce
    modifies ext.state`cache, ext`sub
    ensures ext.Ready() && old(ext.state.cache).Keys <= ext.state.cache.Keys
    ensures Progress(ext.state.View(), after, ext.sub)
            == Perform(op, Frame(ext.me, ext.caller, ext.depth), old(ext.state.View()), left, old(ext.sub), rules)
    decreases op, 4
  {
    hide ViewOf, Overlaid, Consistent, Exec, NestedCall, CreateFrame, SetStore, NoteSending;
    after := left;
    match op {
      case Spend(_) =>
      case Store(key, value, _, refund) =>
        ext.SetStoreHere(key, value);
        ext.sub := ext.sub.(refunds := ext.sub.refunds + refund);
      case Log(entry, _) =>
        ext.sub := ext.sub.(logs := ext.sub.logs + [entry]);
      case Call(_, _, _, _, _, _, _) =>
        var back := CallOp(op, ext, rules);
        after := left + back;
      case Create(_, _, _, _) =>
        after := CreateOp(op, ext, left, rules);
    }
  }

  /** A nested executive for a call: set up, run, and report. */
  method ExecuteCall(state: State, rules: Rules, depth: nat, body: Run, sender: Address, receiver: Address,
                     codeAddress: Address, value: nat, gas: nat, native: Native)
    returns (left: nat, sub: SubState, excepted: bool)
    requires Running(state) && rules.startNonce == state.startNonce
    requires sender in state.View() && state.View()[sender].balance >= value
    modifies state`cache
    ensures Running(state) && old(state.cache).Keys <= state.cache.Keys
    ensures Reply(state.View(), left, sub, excepted)
            == CallFrame(body, sender, receiver, codeAddress, value, gas, native, depth, old(state.View()), rules)
    decreases body, 3
  {
    hide ViewOf, Overlaid, Consistent, Exec, AddBalance, SubBalance;
    ghost var w, keys := state.View(), state.cache.Keys;
    var e := new Executive(state, rules, depth);
    var done := e.Call(sender, receiver, codeAddress, value, gas, native);
    sub := NO_SUBSTATE;
    if !done {
      e.Go(body, w, keys);
      sub := e.ext.sub;
    }
    left, excepted := e.gas, e.excepted;
  }

  method ExecuteCreate(state: State, rules: Rules, depth: nat, init: Init, sender: Address, endowment: nat, gas: nat,
                       address: Address)
    returns (left: nat, sub: SubState, excepted: bool)
    requires Running(state) && rules.startNonce == state.startNonce
    requires sender in state.View() && state.View()[sender].balance >= endowment
    modifies state`cache
    ensures Running(state) && old(state.cache).Keys <= state.cache.Keys
    ensures Reply(state.View(), left, sub, excepted)
            == CreateFrame(init, sender, endowment, gas, address, depth, old(state.View()), rules)
    decreases init, 3
  {
    hide ViewOf, Overlaid, Consistent, Exec, SubBalance;
    ghost var w, keys := state.View(), state.cache.Keys;
    var e := new Executive(state, rules, depth);
    var done := e.Create(sender, endowment, gas, address, init);
    sub := NO_SUBSTATE;
    if !done {
      e.Go(init.run, w, keys);
      sub := e.ext.sub;
    }
    left, excepted := e.gas, e.excepted;
  }

  /** The call instructions: the balance and depth are checked before a nested executive is made. */
  method CallOp(op: Op, ext: ExtVM, rules: Rules) returns (back: nat)
    requires op.Call? && ext.Ready() && rules.startNonce == ext.state.startNonce
    modifies ext.state`cache, ext`sub
    ensures ext.Ready() && old(ext.state.cache).Keys <= ext.state.cache.Keys
    ensures var f, w := Frame(ext.me, ext.caller, ext.depth), old(ext.state.View());
      if w[ext.me].balance >= TransferOf(op) && ext.depth < DEPTH_LIMIT then
        var r := NestedCall(op, f, w, rules);
        ext.state.View() == r.world && back == r.gas && ext.sub == Accrue(old(ext.sub), r.sub)
      else
        ext.state.View() == w && back == ForwardedGas(op) && ext.sub == old(ext.sub)
    decreases op, 3
  {
    hide ViewOf, Overlaid, Consistent, CallFrame;
    var balance := ext.state.BalanceOf(ext.me);
    if balance < TransferOf(op) || ext.depth >= DEPTH_LIMIT {
      back := ForwardedGas(op);
      return;
    }
    var sender := if op.kind.DelegateCall? then ext.caller else ext.me;
    var receiver := if op.kind.PlainCall? then op.target else ext.me;
    var sub, excepted;
    back, sub, excepted := ExecuteCall(ext.state, rules, ext.depth + 1, op.body, sender, receiver, op.target,
                                       TransferOf(op), ForwardedGas(op), op.native);
    ext.sub := Accrue(ext.sub, sub);
  }

  /** The create instruction: the creator's nonce goes up before the frame's copy of the cache is taken. */
  method CreateOp(op: Op, ext: ExtVM, gas: nat, rules: Rules) returns (left: nat)
    requires op.Create? && ext.Ready() && rules.startNonce == ext.state.startNonce
    modifies ext.state`cache, ext`sub
    ensures ext.Ready() && old(ext.state.cache).Keys <= ext.state.cache.Keys
    ensures var f, w := Frame(ext.me, ext.caller, ext.depth), old(ext.state.View());
      if w[ext.me].balance >= op.endowment && ext.depth < DEPTH_LIMIT then
        var w1 := NoteSending(w, ext.me, rules.startNonce);
        var r := CreateFrame(op.init, ext.me, op.endowment, gas, op.address, ext.depth + 1, w1, rules);
        ext.state.View() == r.world && left == r.gas && ext.sub == Accrue(old(ext.sub), r.sub)
      else
        ext.state.View() == w && left == gas && ext.sub == old(ext.sub)
    decreases op, 3
  {
    hide ViewOf, Overlaid, Consistent, CreateFrame, NoteSending;
    var balance := ext.state.BalanceOf(ext.me);
    if balance < op.endowment || ext.depth >= DEPTH_LIMIT {
      left := gas;
      return;
    }
    ext.state.NoteSendingFrom(ext.me);
    assert Balance(ext.state.View(), ext.me) == Balance(old(ext.state.View()), ext.me);
    var sub, excepted;
    left, sub, excepted := ExecuteCreate(ext.state, rules, ext.depth + 1, op.init, ext.me, op.endowment, gas, op.address);
    ext.sub := Accrue(ext.sub, sub);
  }

  /** An account that is under construction in the view is a live, fresh entry of the cache. */
  lemma FreshInCache(s: State, a: Address)
    requires Running(s) && Conceiving(s.View(), a)
    ensures a in s.cache && s.cache[a].alive && s.cache[a].Fresh()
  {
    hide Overlaid, ViewOf;
    ViewAt(s.cache, s.trie, a);
  }

  /** Forcing the receiver into existence first makes no difference to a transfer. */
  lemma TransferForced(w: World, from: Address, to: Address, amount: nat, startNonce: nat)
    requires from in w && w[from].balance >= amount && amount < WORD
    ensures var w1 := w[to := FreshAccount(startNonce, 0)];
      to !in w ==> from in w1 && w1[from] == w[from]
                   && Transfer(w1, from, to, amount, startNonce) == Transfer(w, from, to, amount, startNonce)
  {
  }

  // ---------- transactions ----------

  datatype TxResult = Rejected(why: Refusal) | Executed(gasUsed: nat, logs: seq<nat>, excepted: bool)

  method KillAll(state: State, dead: set<Address>)
    requires state.Valid()
    modifies state`cache
    ensures state.Valid() && state.View() == old(state.View()) - dead
  {
    hide ViewOf, Overlaid, Consistent;
    var todo := dead;
    while todo != {}
      invariant todo <= dead && state.Valid() && state.View() == old(state.View()) - (dead - todo)
    {
      var a :| a in todo;
      state.KillAccount(a);
      assert old(state.View()) - (dead - todo) - {a} == old(state.View()) - (dead - (todo - {a}));
      todo := todo - {a};
    }
  }

  /** The checks made before a transaction is executed; they only read. */
  method CheckTransaction(state: State, rules: Rules, env: BlockEnv, t: Transaction) returns (c: Check)
    requires Running(state) && rules.startNonce == state.startNonce
    modifies state`cache
    ensures Running(state) && state.View() == old(state.View())
    ensures c == Initialize(t, env, old(state.View()), rules)
  {
    hide ViewOf, Overlaid, Consistent;
    if env.gasUsed + t.gas > env.gasLimit {
      return Refused(BlockGasLimitReached);
    }
    if t.baseGas > t.gas {
      return Refused(OutOfGasBase);
    }
    var nonce := state.TransactionsFrom(t.sender);
    if t.nonce != nonce {
      return Refused(InvalidNonce);
    }
    var balance := state.BalanceOf(t.sender);
    if balance < t.value + t.gas * t.gasPrice {
      return Refused(NotEnoughCash);
    }
    return Accepted;
  }

  lemma FeesFit(t: Transaction, left: nat)
    requires left <= t.gas && Allowance(t) < WORD
    ensures left * t.gasPrice < WORD && (t.gas - left) * t.gasPrice < WORD
  {
    FeesAddUp(t.gas, left, t.gasPrice);
  }

  /** Refunds, the sender's unused gas, the author's fees, and the killing of suicided accounts. */
  method Finalize(state: State, rules: Rules, t: Transaction, author: Address, gas: nat, sub: SubState, excepted: bool)
    returns (left: nat)
    requires Running(state) && rules.startNonce == state.startNonce
    requires gas <= t.gas && Allowance(t) < WORD
    modifies state`cache
    ensures state.Valid()
    ensures var r := Reply(old(state.View()), gas, sub, excepted);
      left == GasLeft(t, r) && state.View() == PayFees(t, author, r, rules) - sub.suicides
  {
    hide ViewOf, Overlaid, Consistent, AddBalance, GasLeft;
    LeftIs(t, Reply(state.View(), gas, sub, excepted));
    var refunds := sub.refunds + SUICIDE_REFUND_GAS * |sub.suicides|;
    var half := (t.gas - gas) / 2;
    left := gas + if half < refunds then half else refunds;
    FeesFit(t, left);
    state.AddTo(t.sender, left * t.gasPrice);
    state.AddTo(author, (t.gas - left) * t.gasPrice);
    KillAll(state, sub.suicides);
  }

  lemma LeftIs(t: Transaction, r: Reply)
    requires r.gas <= t.gas
    ensures var refunds, half := r.sub.refunds + SUICIDE_REFUND_GAS * |r.sub.suicides|, (t.gas - r.gas) / 2;
      GasLeft(t, r) == r.gas + if half < refunds then half else refunds
  {
  }

  /** Payment in advance and the outermost frame. */
  method RunTransaction(state: State, rules: Rules, t: Transaction) returns (gas: nat, sub: SubState, excepted: bool)
    requires Running(state) && rules.startNonce == state.startNonce && t.baseGas <= t.gas
    requires Balance(state.View(), t.sender) >= t.value + t.gas * t.gasPrice
    modifies state`cache
    ensures Running(state)
    ensures Reply(state.View(), gas, sub, excepted) == RunAction(t, PayUpfront(t, old(state.View()), rules), rules)
  {
    hide ViewOf, Overlaid, Consistent, CallFrame, CreateFrame, NoteSending;
    state.NoteSendingFrom(t.sender);
    assert Balance(state.View(), t.sender) == Balance(old(state.View()), t.sender);
    var ok := state.SubFrom(t.sender, t.gas * t.gasPrice);
    assert state.View() == PayUpfront(t, old(state.View()), rules);
    match t.action {
      case CallTo(target, native, body) =>
        gas, sub, excepted := ExecuteCall(state, rules, 0, body, t.sender, target, target, t.value, t.gas - t.baseGas, native);
      case NewContract(address, init) =>
        gas, sub, excepted := ExecuteCreate(state, rules, 0, init, t.sender, t.value, t.gas - t.baseGas, address);
    }
  }

  /**
    Executes a transaction on the cached state. A refused one changes no account; a permanent one leaves
    exactly the accounts that the transaction's effects leave on the plain account map, committed to the
    trie; one that is not permanent leaves the trie alone and an empty cache.
   */
  method ExecuteTransaction(state: State, rules: Rules, env: BlockEnv, t: Transaction, permanent: bool)
    returns (result: TxResult)
    requires Running(state) && rules.startNonce == state.startNonce
    modifies state
    ensures Running(state)
    ensures match Initialize(t, env, old(state.View()), rules)
      case Refused(why) => result == Rejected(why) && state.View() == old(state.View())
      case Accepted =>
        var c := Transact(t, env, old(state.View()), rules);
        && result == Executed(c.gasUsed, c.logs, c.excepted)
        && (permanent ==> state.View() == Settled(c.world))
        && (!permanent ==> state.trie == old(state.trie) && state.cache == map[])
  {
    hide ViewOf, Overlaid, RunAction, PayUpfront, PayFees, GasLeft;
    var c := CheckTransaction(state, rules, env, t);
    if c.Refused? {
      return Rejected(c.why);
    }
    BalanceFits(state, t.sender);
    assert Allowance(t) < WORD;
    var gas, sub, excepted := RunTransaction(state, rules, t);
    var left := Finalize(state, rules, t, env.author, gas, sub, excepted);
    if permanent {
      state.Commit();
    } else {
      state.cache := map[];
    }
    result := Executed(t.gas - left, sub.logs, excepted);
  }
}
