/** The bisection by which the client estimates the gas that a transaction needs. */
module GasEstimate {
  import opened Options

  const MAX_GAS_ESTIMATE: nat := 50000000

  /**
    How an execution with so much gas ends: for lack of gas, a failed deposit or a bad jump; otherwise; or with an
    exception, as when the gas is less than the transaction's base gas.
   */
  datatype Ending = NotEnough | Enough | Throws

  type Oracle = nat -> Ending

  /** The run whose result is reported, by its gas; none if the bounds were equal to begin with. */
  datatype Estimate = Estimate(gas: nat, reported: Option<nat>)

  /** What is returned when an execution throws. */
  const NO_ESTIMATE := Estimate(0, None)

  function Cap(maxGas: nat): nat {
    if maxGas > MAX_GAS_ESTIMATE then MAX_GAS_ESTIMATE else maxGas
  }

  predicate Between(low: nat, high: nat, g: nat) {
    low <= g < high || high <= g < low
  }

  ghost predicate NeverThrows(run: Oracle, low: nat, high: nat) {
    forall g :: Between(low, high, g) ==> !run(g).Throws?
  }

  /** What the last bounds say: enough at the top unless it is untouched, not enough at the bottom or just below it. */
  ghost predicate Bracket(run: Oracle, low: nat, high: nat, lower: nat, upper: nat) {
    && low <= lower <= upper <= high
    && (upper < high ==> run(upper).Enough?)
    && (lower > low ==> if lower < upper then run(lower).NotEnough? else run(lower - 1).NotEnough?)
  }

  /** For all bounds, in order or not, the search ends between them, unless an execution throws. */
  method Bisect(run: Oracle, low: nat, high: nat) returns (r: Estimate, threw: bool)
    ensures threw ==> r == NO_ESTIMATE && !NeverThrows(run, low, high)
    ensures !threw ==> (low <= r.gas <= high) || (high <= r.gas <= low)
    ensures !threw && low <= high && r.gas < high ==> run(r.gas).Enough? && r.reported == Some(r.gas)
    ensures !threw && low <= high && r.gas > low ==> run(r.gas - 1).NotEnough?
    ensures !threw && low <= high && r.gas == high ==> r.reported == if low == high then None else Some(high - 1)
    ensures low > high && (forall g: nat :: g < low ==> run(g).Throws?) ==> threw
  {
    var lower: nat, upper: nat := low, high;
    var last: Option<nat>, lastGood: Option<nat>, good := None, None, false;
    while upper != lower
      invariant low <= high ==> Bracket(run, low, high, lower, upper)
      invariant low <= high ==> (good <==> upper < high) && (good ==> lastGood == Some(upper))
      invariant low <= high && lower == upper == high && low < high ==> last == Some(high - 1)
      invariant low == high ==> last == None
      invariant low > high ==> high <= upper <= lower <= low
      invariant low > high && (forall g: nat :: g < low ==> run(g).Throws?) ==> lower == low && upper == high
      decreases if upper > lower then upper - lower else lower - upper
    {
      var mid := (lower + upper) / 2;
      var ending := run(mid);
      if ending.Throws? {
        assert Between(low, high, mid);
        return NO_ESTIMATE, true;
      }
      last := Some(mid);
      if ending.NotEnough? {
        lower := if lower == mid then upper else mid;
      } else {
        lastGood := Some(mid);
        upper := if upper == mid then lower else mid;
        good := true;
      }
    }
    r, threw := Estimate(upper, if good then lastGood else last), false;
  }

  /** More gas never hurts. */
  ghost predicate Monotone(run: Oracle) {
    forall a: nat, b: nat :: a <= b && run(a).Enough? ==> run(b).Enough?
  }

  /** No amount in the range below r is enough. */
  ghost predicate NoneBelow(run: Oracle, low: nat, r: nat) {
    forall g: nat :: low <= g < r ==> !run(g).Enough?
  }

  /** If more gas never hurts, not being enough just below the estimate means not being enough everywhere below it. */
  lemma NotEnoughBelow(run: Oracle, low: nat, last: nat)
    requires Monotone(run) && !run(last).Enough?
    ensures NoneBelow(run, low, last + 1)
  {
    forall g: nat | low <= g < last + 1 ensures !run(g).Enough? {
      assert run(g).Enough? ==> run(last).Enough?;
    }
  }

  /**
    The least sufficient amount between the transaction's intrinsic gas and the cap, or the cap if none is. Below the
    intrinsic gas executions throw; if that is above the cap, the search throws at once and the answer is 0.
   */
  method EstimateGas(run: Oracle, intrinsic: nat, maxGas: nat) returns (r: Estimate)
    ensures NeverThrows(run, intrinsic, Cap(maxGas)) && intrinsic <= Cap(maxGas) ==> intrinsic <= r.gas <= Cap(maxGas)
    ensures NeverThrows(run, intrinsic, Cap(maxGas)) && intrinsic <= Cap(maxGas) && Monotone(run) ==>
      NoneBelow(run, intrinsic, r.gas) && (r.gas < Cap(maxGas) ==> run(r.gas).Enough?)
    ensures intrinsic > Cap(maxGas) && (forall g: nat :: g < intrinsic ==> run(g).Throws?) ==> r == NO_ESTIMATE
  {
    var threw;
    r, threw := Bisect(run, intrinsic, Cap(maxGas));
    if !threw && intrinsic < r.gas && intrinsic <= Cap(maxGas) && Monotone(run) { NotEnoughBelow(run, intrinsic, r.gas - 1); }
  }
}
