/** What enacting or sealing a block pays to its author and to the authors of its uncles. */
module Rewards {
  import opened Accounts
  import opened BlockTree
  import opened Uncles

  /** 256-bit arithmetic. */
  function Wrap(n: int): nat {
    n % WORD
  }

  lemma WrapSmall(n: int)
    requires 0 <= n < WORD
    ensures Wrap(n) == n
  {
  }

  /** An uncle's share, in the 256-bit arithmetic of the program. */
  function UncleReward(reward: nat, uncleNumber: nat, number: nat): nat {
    Wrap(reward * Wrap(8 + uncleNumber - number)) / 8
  }

  /** The author's share when `count` uncles are cited. */
  function AuthorReward(reward: nat, count: nat): nat {
    if count == 0 then reward else Wrap(AuthorReward(reward, count - 1) + reward / 32)
  }

  function PayUncles(w: World, hs: Headers, us: seq<Hash>, number: nat, reward: nat, startNonce: nat): World
    decreases |us|
  {
    if us == [] then w
    else
      var u := hs(us[0]);
      PayUncles(AddBalance(w, u.author, UncleReward(reward, u.number, number), startNonce), hs, us[1..], number, reward, startNonce)
  }

  function ApplyRewards(w: World, hs: Headers, us: seq<Hash>, author: Address, number: nat, reward: nat, startNonce: nat): World {
    AddBalance(PayUncles(w, hs, us, number, reward, startNonce), author, AuthorReward(reward, |us|), startNonce)
  }

  function UncleShares(hs: Headers, us: seq<Hash>, number: nat, reward: nat): nat {
    if us == [] then 0 else UncleReward(reward, hs(us[0]).number, number) + UncleShares(hs, us[1..], number, reward)
  }

  /** All that a block brings into existence. */
  function Minted(hs: Headers, us: seq<Hash>, number: nat, reward: nat): nat {
    UncleShares(hs, us, number, reward) + AuthorReward(reward, |us|)
  }

  /** At most two uncles, one to six generations back. */
  predicate Citable(hs: Headers, us: seq<Hash>, number: nat) {
    |us| <= MAX_UNCLES && forall u :: u in us ==> 1 <= number - hs(u).number <= GENERATIONS
  }

  lemma UnclesCitable(f: Family, hs: Headers, cur: Current, us: seq<Hash>)
    requires Consistent(f, hs) && cur.parent in f.tree && |us| <= MAX_UNCLES
    requires forall u :: u in us ==> IsUncle(f, hs, cur, u)
    ensures Citable(hs, us, NumberOf(f, cur))
  {
    hide Consistent, Kin, Chain;
    forall u | u in us ensures 1 <= NumberOf(f, cur) - hs(u).number <= GENERATIONS { assert IsUncle(f, hs, cur, u); }
  }

  lemma AtMostSeven(reward: nat, k: nat)
    requires k <= 7
    ensures 0 <= reward * k <= 7 * reward && 8 * (reward * k / 8) <= 7 * reward
  {
    var x := reward * k;
    assert x <= 7 * reward;
  }

  /** For an uncle d generations back nothing wraps: its share is (8 - d) eighths. */
  lemma UncleRewardIs(reward: nat, uncleNumber: nat, number: nat)
    requires 1 <= number - uncleNumber <= GENERATIONS && 8 * reward < WORD
    ensures UncleReward(reward, uncleNumber, number) == reward * (8 - (number - uncleNumber)) / 8
    ensures 8 * UncleReward(reward, uncleNumber, number) <= 7 * reward
  {
    hide Wrap;
    var k := 8 + uncleNumber - number;
    WrapSmall(k);
    AtMostSeven(reward, k);
    WrapSmall(reward * k);
  }

  lemma OneMore(n: nat, x: nat)
    requires n > 0
    ensures n * x == (n - 1) * x + x
  {
  }

  lemma {:induction false} AuthorRewardIs(reward: nat, count: nat)
    requires count <= MAX_UNCLES && 8 * reward < WORD
    ensures AuthorReward(reward, count) == reward + count * (reward / 32)
  {
    hide Wrap;
    if count > 0 {
      AuthorRewardIs(reward, count - 1);
      OneMore(count, reward / 32);
      assert count * (reward / 32) <= 2 * (reward / 32);
      WrapSmall(reward + count * (reward / 32));
    }
  }

  lemma {:induction false} UncleSharesBound(hs: Headers, us: seq<Hash>, number: nat, reward: nat)
    requires 8 * reward < WORD && forall u :: u in us ==> 1 <= number - hs(u).number <= GENERATIONS
    ensures 8 * UncleShares(hs, us, number, reward) <= |us| * (7 * reward)
  {
    hide UncleReward;
    if us != [] {
      UncleRewardIs(reward, hs(us[0]).number, number);
      UncleSharesBound(hs, us[1..], number, reward);
      OneMore(|us|, 7 * reward);
    }
  }

  /** A block mints at least its reward and at most 45/16 of it. */
  lemma MintedBound(hs: Headers, us: seq<Hash>, number: nat, reward: nat)
    requires Citable(hs, us, number) && 8 * reward < WORD
    ensures reward <= Minted(hs, us, number, reward)
    ensures 16 * Minted(hs, us, number, reward) <= 45 * reward
  {
    UncleSharesBound(hs, us, number, reward);
    AuthorRewardIs(reward, |us|);
    assert |us| * (7 * reward) <= 2 * (7 * reward);
    assert |us| * (reward / 32) <= 2 * (reward / 32);
  }

  lemma {:induction false} PayUnclesTotal(w: World, hs: Headers, us: seq<Hash>, number: nat, reward: nat, startNonce: nat)
    requires Total(w) + UncleShares(hs, us, number, reward) < WORD
    ensures Total(PayUncles(w, hs, us, number, reward, startNonce)) == Total(w) + UncleShares(hs, us, number, reward)
    decreases |us|
  {
    hide Total, AddBalance, UncleReward;
    if us != [] {
      var u := hs(us[0]);
      var share := UncleReward(reward, u.number, number);
      AddBalanceTotal(w, u.author, share, startNonce);
      PayUnclesTotal(AddBalance(w, u.author, share, startNonce), hs, us[1..], number, reward, startNonce);
    }
  }

  /** The supply grows by exactly what is minted. */
  lemma RewardsTotal(w: World, hs: Headers, us: seq<Hash>, author: Address, number: nat, reward: nat, startNonce: nat)
    requires Total(w) + Minted(hs, us, number, reward) < WORD
    ensures Total(ApplyRewards(w, hs, us, author, number, reward, startNonce)) == Total(w) + Minted(hs, us, number, reward)
  {
    hide Total, AddBalance, UncleShares, PayUncles, AuthorReward;
    PayUnclesTotal(w, hs, us, number, reward, startNonce);
    AddBalanceTotal(PayUncles(w, hs, us, number, reward, startNonce), author, AuthorReward(reward, |us|), startNonce);
  }

  /** All that the first n blocks of a chain after the genesis block have minted. */
  function Issued(f: Family, hs: Headers, c: seq<Hash>, n: nat, reward: nat): nat
    requires n < |c| && forall h :: h in c ==> h in f.uncles
  {
    if n == 0 then 0 else Issued(f, hs, c, n - 1, reward) + Minted(hs, f.uncles[c[n]], n, reward)
  }

  /** On every chain of enacted blocks, the issue after n blocks is between n and 45/16 n block rewards. */
  lemma {:induction false} IssueBound(f: Family, hs: Headers, head: Hash, n: nat, reward: nat)
    requires AllEnacted(f, hs) && head in f.tree && 8 * reward < WORD && n < |Chain(f.tree, f.genesis, head)|
    ensures var c := Chain(f.tree, f.genesis, head);
      n * reward <= Issued(f, hs, c, n, reward) && 16 * Issued(f, hs, c, n, reward) <= n * (45 * reward)
  {
    hide Chain, Kin, WellNumbered, IsUncle, Minted, Citable;
    if n > 0 {
      var c := Chain(f.tree, f.genesis, head);
      IssueBound(f, hs, head, n - 1, reward);
      ChainStep(f.tree, f.genesis, head, n);
      ChainPrefix(f.tree, f.genesis, head, n - 1);
      assert IsEnacted(f, hs, c[n]);
      UnclesCitable(f, hs, Current(c[n], c[n - 1]), f.uncles[c[n]]);
      MintedBound(hs, f.uncles[c[n]], n, reward);
      OneMore(n, 45 * reward);
      OneMore(n, reward);
    }
  }
}
