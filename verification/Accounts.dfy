/**
  Accounts as a plain map from address to account, and the balance operations of the state on it.
  This is the view that the cached, trie-backed state presents.
 */
module Accounts {

  type Address = nat
  type Code = seq<nat>
  type Storage = map<nat, nat>

  /** 2^256: balances and nonces are words. */
  const WORD: nat := 0x1_0000000000000000_0000000000000000_0000000000000000_0000000000000000

  /** `conceiving` is set from a contract's creation until the state is committed. A storage map holds no zeros. */
  datatype Account = Account(nonce: nat, balance: nat, storage: Storage, code: Code, conceiving: bool)

  type World = map<Address, Account>

  function SetSlot(s: Storage, key: nat, value: nat): Storage {
    if value == 0 then s - {key} else s[key := value]
  }

  function Balance(w: World, a: Address): nat {
    if a in w then w[a].balance else 0
  }

  function Nonce(w: World, a: Address, startNonce: nat): nat {
    if a in w then w[a].nonce else startNonce
  }

  predicate HasCode(w: World, a: Address) {
    a in w && (w[a].conceiving || w[a].code != [])
  }

  function FreshAccount(nonce: nat, balance: nat): Account {
    Account(nonce, balance, map[], [], false)
  }

  /** Adds to a balance, in 256-bit arithmetic; an unused address is initialised. */
  function AddBalance(w: World, a: Address, amount: nat, startNonce: nat): (r: World)
    ensures r.Keys == w.Keys + {a}
  {
    if a in w then w[a := w[a].(balance := (w[a].balance + amount) % WORD)]
    else w[a := FreshAccount(startNonce, amount)]
  }

  /** Subtracts from a balance; the state throws NotEnoughCash unless the precondition holds. */
  function SubBalance(w: World, a: Address, amount: nat): (r: World)
    requires a in w && w[a].balance >= amount
    ensures r.Keys == w.Keys
  {
    w[a := w[a].(balance := w[a].balance - amount)]
  }

  function Transfer(w: World, from: Address, to: Address, amount: nat, startNonce: nat): (r: World)
    requires from in w && w[from].balance >= amount
    ensures r.Keys == w.Keys + {to}
  {
    AddBalance(SubBalance(w, from, amount), to, amount, startNonce)
  }

  function NoteSending(w: World, a: Address, startNonce: nat): (r: World)
    ensures r.Keys == w.Keys + {a}
    ensures forall x :: Balance(r, x) == Balance(w, x)
  {
    if a in w then w[a := w[a].(nonce := (w[a].nonce + 1) % WORD)]
    else w[a := FreshAccount((startNonce + 1) % WORD, 0)]
  }

  /** What commit leaves: the same accounts, none of them in conception any more. */
  function Settled(w: World): (r: World)
    ensures forall x :: Balance(r, x) == Balance(w, x)
  {
    map a | a in w :: w[a].(conceiving := false)
  }

  // ---------- sums of balances ----------

  /** The money held by the addresses in `s`. */
  ghost function Held(w: World, s: set<Address>): nat {
    if s == {} then 0 else var a :| a in s; Balance(w, a) + Held(w, s - {a})
  }

  ghost function Total(w: World): nat {
    Held(w, w.Keys)
  }

  lemma {:induction false} HeldSplit(w: World, s: set<Address>, a: Address)
    requires a in s
    ensures Held(w, s) == Balance(w, a) + Held(w, s - {a})
    decreases s
  {
    var b :| b in s && Held(w, s) == Balance(w, b) + Held(w, s - {b});
    if b != a {
      HeldSplit(w, s - {b}, a);
      HeldSplit(w, s - {a}, b);
      assert s - {b} - {a} == s - {a} - {b};
    }
  }

  lemma {:induction false} HeldSame(w: World, w': World, s: set<Address>)
    requires forall a :: a in s ==> Balance(w, a) == Balance(w', a)
    ensures Held(w, s) == Held(w', s)
    decreases s
  {
    if s != {} {
      var a :| a in s;
      HeldSplit(w, s, a);
      HeldSplit(w', s, a);
      HeldSame(w, w', s - {a});
    }
  }

  /** Addresses outside the world hold nothing. */
  lemma {:induction false} HeldBeyond(w: World, s: set<Address>)
    requires w.Keys <= s
    ensures Held(w, s) == Total(w)
    decreases s
  {
    if s != w.Keys {
      var a :| a in s && a !in w.Keys;
      HeldSplit(w, s, a);
      HeldBeyond(w, s - {a});
    }
  }

  lemma BalanceBounded(w: World, a: Address)
    ensures Balance(w, a) <= Total(w)
  {
    if a in w { HeldSplit(w, w.Keys, a); }
  }

  lemma {:induction false} HeldDisjoint(w: World, s: set<Address>, t: set<Address>)
    requires s !! t
    ensures Held(w, s + t) == Held(w, s) + Held(w, t)
    decreases t
  {
    if t == {} {
      assert s + t == s;
    } else {
      var a :| a in t;
      HeldSplit(w, t, a);
      HeldSplit(w, s + t, a);
      assert s + t - {a} == s + (t - {a});
      HeldDisjoint(w, s, t - {a});
    }
  }

  /** Two worlds that differ in one balance differ by that much in total. */
  lemma TotalAfterUpdate(w: World, w': World, a: Address)
    requires forall b :: b != a ==> Balance(w', b) == Balance(w, b)
    ensures Total(w') + Balance(w, a) == Total(w) + Balance(w', a)
  {
    var all := w.Keys + w'.Keys + {a};
    HeldBeyond(w, all);
    HeldBeyond(w', all);
    HeldSplit(w, all, a);
    HeldSplit(w', all, a);
    HeldSame(w, w', all - {a});
  }

  lemma TotalSame(w: World, w': World)
    requires forall b :: Balance(w', b) == Balance(w, b)
    ensures Total(w') == Total(w)
  {
    TotalAfterUpdate(w, w', 0);
  }

  /** As long as the supply fits a word, an addition out of that supply does not wrap. */
  lemma AddBalanceTotal(w: World, a: Address, amount: nat, startNonce: nat)
    requires Total(w) + amount < WORD
    ensures Total(AddBalance(w, a, amount, startNonce)) == Total(w) + amount
    ensures Balance(AddBalance(w, a, amount, startNonce), a) == Balance(w, a) + amount
  {
    BalanceBounded(w, a);
    TotalAfterUpdate(w, AddBalance(w, a, amount, startNonce), a);
  }

  lemma SubBalanceTotal(w: World, a: Address, amount: nat)
    requires a in w && w[a].balance >= amount
    ensures Total(SubBalance(w, a, amount)) + amount == Total(w)
  {
    TotalAfterUpdate(w, SubBalance(w, a, amount), a);
  }

  lemma TransferTotal(w: World, from: Address, to: Address, amount: nat, startNonce: nat)
    requires from in w && w[from].balance >= amount && Total(w) < WORD
    ensures Total(Transfer(w, from, to, amount, startNonce)) == Total(w)
  {
    SubBalanceTotal(w, from, amount);
    AddBalanceTotal(SubBalance(w, from, amount), to, amount, startNonce);
  }

  /** Killing accounts destroys what they hold. */
  lemma KillTotal(w: World, dead: set<Address>)
    ensures Total(w - dead) + Held(w, dead) == Total(w)
  {
    var w' := w - dead;
    HeldDisjoint(w, w'.Keys, dead);
    HeldBeyond(w, w'.Keys + dead);
    HeldSame(w, w', w'.Keys);
  }
}
