/**
  Transaction execution over the plain account map. What the virtual machine does in a frame is an
  arbitrary finite tree of effects; nested calls and creations hang off it as subtrees.
 */
module Execution {
  import opened Accounts

  datatype CallKind = PlainCall | CallCode | DelegateCall

  /** Whether the called address is a precompiled contract, and what it then costs. */
  datatype Native = NotNative | Precompiled(cost: nat)

  /** What running a frame does, up to the end of the frame. */
  datatype Run =
    | Stop(output: Code)
    | Suicide(heir: Address, cost: nat)
    | Throw
    | Step(op: Op, rest: Run)

  /** `extra` collects the instruction's remaining costs: memory, copying, a new account. */
  datatype Op =
    | Spend(cost: nat)
    | Store(key: nat, value: nat, cost: nat, refund: nat)
    | Log(entry: nat, cost: nat)
    | Call(kind: CallKind, target: Address, value: nat, gas: nat, extra: nat, native: Native, body: Run)
    | Create(endowment: nat, address: Address, extra: nat, init: Init)

  datatype Init = NoInit | InitCode(run: Run)

  const CALL_GAS: nat := 40
  const CALL_VALUE_TRANSFER_GAS: nat := 9000
  const CALL_STIPEND: nat := 2300
  const CREATE_GAS: nat := 32000
  const CREATE_DATA_GAS: nat := 200
  const SUICIDE_REFUND_GAS: nat := 24000
  const DEPTH_LIMIT: nat := 1024

  datatype Rules = Rules(startNonce: nat, exceptionalFailedCodeDeposit: bool)

  /** `burned` keeps count of the money that suicides in favour of oneself destroy. */
  datatype SubState = SubState(suicides: set<Address>, logs: seq<nat>, refunds: nat, burned: nat)

  const NO_SUBSTATE := SubState({}, [], 0, 0)

  function Accrue(a: SubState, b: SubState): SubState {
    SubState(a.suicides + b.suicides, a.logs + b.logs, a.refunds + b.refunds, a.burned + b.burned)
  }

  /** The address a frame runs for, who called it, and how deep it is. */
  datatype Frame = Frame(me: Address, caller: Address, depth: nat)

  datatype Outcome = Outcome(world: World, gas: nat, sub: SubState, thrown: bool, output: Code)

  datatype Progress = Progress(world: World, gas: nat, sub: SubState)

  /** What a call or a creation reports back to its caller. */
  datatype Reply = Reply(world: World, gas: nat, sub: SubState, excepted: bool)

  // ---------- the effects of single instructions ----------

  function TransferOf(op: Op): nat
    requires op.Call?
  {
    if op.kind.DelegateCall? then 0 else op.value
  }

  function CostOf(op: Op): nat {
    match op
    case Spend(cost) => cost
    case Store(_, _, cost, _) => cost
    case Log(_, cost) => cost
    case Call(kind, _, value, gas, extra, _, _) =>
      gas + CALL_GAS + extra + (if TransferOf(op) > 0 then CALL_VALUE_TRANSFER_GAS else 0)
    case Create(_, _, extra, _) => CREATE_GAS + extra
  }

  /** The gas a callee starts with. */
  function ForwardedGas(op: Op): (g: nat)
    requires op.Call?
    ensures g <= CostOf(op)
  {
    op.gas + (if TransferOf(op) > 0 then CALL_STIPEND else 0)
  }

  function SetStore(w: World, a: Address, key: nat, value: nat): (r: World)
    requires a in w
    ensures r.Keys == w.Keys
  {
    w[a := w[a].(storage := SetSlot(w[a].storage, key, value))]
  }

  /** First the heir is paid, then the balance, whatever it is by now, is taken away. */
  function SuicideTo(w: World, me: Address, heir: Address, startNonce: nat): (r: World)
    requires me in w
    ensures r.Keys == w.Keys + {heir}
  {
    var w1 := AddBalance(w, heir, w[me].balance, startNonce);
    SubBalance(w1, me, w1[me].balance)
  }

  /** The account of a contract under construction: a new one that keeps the address's balance. */
  function Conceive(w: World, a: Address, startNonce: nat): World {
    w[a := Account(startNonce, Balance(w, a), map[], [], true)]
  }

  function SetCode(w: World, a: Address, code: Code): World
    requires a in w
  {
    w[a := w[a].(code := code)]
  }

  // ---------- frames ----------

  /** Runs a frame's effects in order until it ends or throws. */
  function Exec(run: Run, f: Frame, w: World, gas: nat, sub: SubState, rules: Rules): (o: Outcome)
    requires f.me in w && f.caller in w
    ensures w.Keys <= o.world.Keys && o.gas <= gas
    decreases run, 1
  {
    match run
    case Throw => Outcome(w, gas, sub, true, [])
    case Stop(output) => Outcome(w, gas, sub, false, output)
    case Suicide(heir, cost) =>
      if gas < cost then Outcome(w, gas, sub, true, [])
      else
        var burnt := if heir == f.me then w[f.me].balance else 0;
        Outcome(SuicideTo(w, f.me, heir, rules.startNonce), gas - cost,
                sub.(suicides := sub.suicides + {f.me}, burned := sub.burned + burnt), false, [])
    case Step(op, rest) =>
      if gas < CostOf(op) then Outcome(w, gas, sub, true, [])
      else
        var p := Perform(op, f, w, gas - CostOf(op), sub, rules);
        Exec(rest, f, p.world, p.gas, p.sub, rules)
  }

  /** One instruction, already paid for, with everything that is nested in it. */
  function Perform(op: Op, f: Frame, w: World, left: nat, sub: SubState, rules: Rules): (p: Progress)
    requires f.me in w && f.caller in w
    ensures w.Keys <= p.world.Keys && p.gas <= left + CostOf(op)
    decreases op, 3
  {
    match op
    case Spend(_) => Progress(w, left, sub)
    case Store(key, value, _, refund) =>
      Progress(SetStore(w, f.me, key, value), left, sub.(refunds := sub.refunds + refund))
    case Log(entry, _) => Progress(w, left, sub.(logs := sub.logs + [entry]))
    case Call(_, _, _, _, _, _, _) =>
      if w[f.me].balance >= TransferOf(op) && f.depth < DEPTH_LIMIT then
        var r := NestedCall(op, f, w, rules);
        Progress(r.world, left + r.gas, Accrue(sub, r.sub))
      else Progress(w, left + ForwardedGas(op), sub)
    case Create(endowment, address, _, init) =>
      if w[f.me].balance >= endowment && f.depth < DEPTH_LIMIT then
        var w1 := NoteSending(w, f.me, rules.startNonce);
        var r := CreateFrame(init, f.me, endowment, left, address, f.depth + 1, w1, rules);
        Progress(r.world, r.gas, Accrue(sub, r.sub))
      else Progress(w, left, sub)
  }

  /** The three call instructions: who sends, who receives and what moves. */
  function NestedCall(op: Op, f: Frame, w: World, rules: Rules): (r: Reply)
    requires op.Call? && f.me in w && f.caller in w && w[f.me].balance >= TransferOf(op)
    ensures w.Keys <= r.world.Keys && r.gas <= ForwardedGas(op)
    decreases op, 1
  {
    var sender := if op.kind.DelegateCall? then f.caller else f.me;
    var receiver := if op.kind.PlainCall? then op.target else f.me;
    CallFrame(op.body, sender, receiver, op.target, TransferOf(op), ForwardedGas(op), op.native, f.depth + 1, w, rules)
  }

  /** Executive::call followed by go: the value moves after the snapshot, so that a throw takes it back. */
  function CallFrame(body: Run, sender: Address, receiver: Address, codeAddress: Address, value: nat, gas: nat,
                     native: Native, depth: nat, w: World, rules: Rules): (r: Reply)
    requires sender in w && w[sender].balance >= value
    ensures w.Keys <= r.world.Keys && r.gas <= gas
    decreases body, 2
  {
    if native.Precompiled? then
      if gas < native.cost then Reply(w, 0, NO_SUBSTATE, true)
      else Reply(Transfer(w, sender, receiver, value, rules.startNonce), gas - native.cost, NO_SUBSTATE, false)
    else
      var w1 := Transfer(w, sender, receiver, value, rules.startNonce);
      if !HasCode(w, codeAddress) then Reply(w1, gas, NO_SUBSTATE, false)
      else
        var o := Exec(body, Frame(receiver, sender, depth), w1, gas, NO_SUBSTATE, rules);
        if o.thrown then Reply(w, 0, NO_SUBSTATE, true) else Reply(o.world, o.gas, o.sub, false)
  }

  /** Executive::create followed by go, including the charge for depositing the code. */
  function CreateFrame(init: Init, sender: Address, endowment: nat, gas: nat, address: Address, depth: nat,
                       w: World, rules: Rules): (r: Reply)
    requires sender in w && w[sender].balance >= endowment
    ensures w.Keys <= r.world.Keys && r.gas <= gas
    decreases init, 2
  {
    var w1 := Transfer(Conceive(w, address, rules.startNonce), sender, address, endowment, rules.startNonce);
    match init
    case NoInit => Reply(SetCode(w1, address, []), gas, NO_SUBSTATE, false)
    case InitCode(run) =>
      var o := Exec(run, Frame(address, sender, depth), w1, gas, NO_SUBSTATE, rules);
      var deposit := |o.output| * CREATE_DATA_GAS;
      if o.thrown then Reply(w, 0, NO_SUBSTATE, true)
      else if deposit <= o.gas then Reply(SetCode(o.world, address, o.output), o.gas - deposit, o.sub, false)
      else if rules.exceptionalFailedCodeDeposit then Reply(w, 0, NO_SUBSTATE, true)
      else Reply(SetCode(o.world, address, []), o.gas, o.sub, false)
  }

  // ---------- transactions ----------

  datatype Action =
    | CallTo(target: Address, native: Native, body: Run)
    | NewContract(address: Address, init: Init)

  /** `baseGas` is the intrinsic gas of the transaction's data and kind. */
  datatype Transaction = Transaction(sender: Address, nonce: nat, value: nat, gas: nat, gasPrice: nat, baseGas: nat,
                                     action: Action)

  datatype BlockEnv = BlockEnv(author: Address, gasLimit: nat, gasUsed: nat)

  datatype Refusal = BlockGasLimitReached | OutOfGasBase | InvalidNonce | NotEnoughCash

  datatype Check = Accepted | Refused(why: Refusal)

  /** Executive::initialize: the checks in the order in which they are made. */
  function Initialize(t: Transaction, env: BlockEnv, w: World, rules: Rules): Check {
    if env.gasUsed + t.gas > env.gasLimit then Refused(BlockGasLimitReached)
    else if t.baseGas > t.gas then Refused(OutOfGasBase)
    else if t.nonce != Nonce(w, t.sender, rules.startNonce) then Refused(InvalidNonce)
    else if Balance(w, t.sender) < t.value + t.gas * t.gasPrice then Refused(NotEnoughCash)
    else Accepted
  }

  /** `world` is the map after the suicided accounts are gone. */
  datatype Receipt = Receipt(world: World, gasUsed: nat, logs: seq<nat>, excepted: bool, sub: SubState)

  /** The sender's nonce goes up and the whole gas allowance is paid for in advance. */
  function PayUpfront(t: Transaction, w: World, rules: Rules): (r: World)
    requires Balance(w, t.sender) >= t.value + t.gas * t.gasPrice
    ensures w.Keys <= r.Keys && t.sender in r && r[t.sender].balance >= t.value
  {
    SubBalance(NoteSending(w, t.sender, rules.startNonce), t.sender, t.gas * t.gasPrice)
  }

  function RunAction(t: Transaction, w: World, rules: Rules): (r: Reply)
    requires t.baseGas <= t.gas && t.sender in w && w[t.sender].balance >= t.value
    ensures w.Keys <= r.world.Keys && r.gas <= t.gas - t.baseGas
  {
    match t.action
    case CallTo(target, native, body) =>
      CallFrame(body, t.sender, target, target, t.value, t.gas - t.baseGas, native, 0, w, rules)
    case NewContract(address, init) =>
      CreateFrame(init, t.sender, t.value, t.gas - t.baseGas, address, 0, w, rules)
  }

  function Min(a: nat, b: nat): nat {
    if a < b then a else b
  }

  /** The gas left once refunds, capped at half of what was used, are added back. */
  function GasLeft(t: Transaction, r: Reply): (g: nat)
    requires r.gas <= t.gas
    ensures r.gas <= g <= t.gas
  {
    r.gas + Min((t.gas - r.gas) / 2, r.sub.refunds + SUICIDE_REFUND_GAS * |r.sub.suicides|)
  }

  /** Executive::finalize up to the killing of accounts: the unused gas is paid back, the rest earned. */
  function PayFees(t: Transaction, author: Address, r: Reply, rules: Rules): World
    requires r.gas <= t.gas
  {
    var left := GasLeft(t, r);
    AddBalance(AddBalance(r.world, t.sender, left * t.gasPrice, rules.startNonce),
               author, (t.gas - left) * t.gasPrice, rules.startNonce)
  }

  function Transact(t: Transaction, env: BlockEnv, w: World, rules: Rules): Receipt
    requires Initialize(t, env, w, rules).Accepted?
  {
    var r := RunAction(t, PayUpfront(t, w, rules), rules);
    Receipt(PayFees(t, env.author, r, rules) - r.sub.suicides, t.gas - GasLeft(t, r), r.sub.logs, r.excepted, r.sub)
  }
}
