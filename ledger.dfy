/** The fungible-token ledger the contract keeps for each token and for its
    LP share token: balances per account and a total supply, with checked
    credits and debits. The contract copies a ledger out of its map, updates
    the copy and writes it back, so a ledger is a value here. */
module Ledger {
  import opened Wrappers
  import opened Near

  datatype FungibleToken = FungibleToken(accounts: map<AccountId, u128>, totalSupply: u128)

  /** The balance of an account; an account without an entry holds nothing. */
  function BalanceOf(t: FungibleToken, a: AccountId): (r: u128)
    ensures a in t.accounts ==> r == t.accounts[a]
    ensures a !in t.accounts ==> r == 0
  {
    if a in t.accounts then t.accounts[a] else 0
  }

  /** The sum of all balances in a map. */
  ghost function Sum(m: map<AccountId, u128>): nat
    decreases m.Keys
  {
    if m == map[] then 0 else
    var k := Pick(m);
    m[k] + Sum(m - {k})
  }

  ghost function Pick(m: map<AccountId, u128>): (k: AccountId)
    requires m != map[]
    ensures k in m
  {
    assert m.Keys != {};
    var k :| k in m.Keys; k
  }

  /** Sum does not depend on the order the keys are taken in. */
  lemma {:induction false} SumRemove(m: map<AccountId, u128>, k: AccountId)
    requires k in m
    ensures Sum(m) == m[k] + Sum(m - {k})
    decreases m.Keys
  {
    var j := Pick(m);
    if j != k {
      SumRemove(m - {j}, k);
      SumRemove(m - {k}, j);
      assert m - {j} - {k} == m - {k} - {j};
    }
  }

  /** Replacing one balance changes the sum by the difference. */
  lemma SumUpdate(m: map<AccountId, u128>, k: AccountId, v: u128)
    ensures Sum(m[k := v]) + (if k in m then m[k] else 0) == Sum(m) + v
  {
    SumRemove(m[k := v], k);
    assert m[k := v] - {k} == m - {k};
    if k in m {
      SumRemove(m, k);
    } else {
      assert m - {k} == m;
    }
  }

  /** The ledger's invariant: its total supply is the sum of its balances. */
  ghost predicate Valid(t: FungibleToken) {
    t.totalSupply == Sum(t.accounts)
  }

  /** In a valid ledger no balance exceeds the total supply. */
  lemma BalanceAtMostSupply(t: FungibleToken, a: AccountId)
    ensures Valid(t) ==> BalanceOf(t, a) <= t.totalSupply
  {
    if Valid(t) && a in t.accounts {
      SumRemove(t.accounts, a);
    }
  }

  /** A new ledger with `owner` registered and nothing issued. */
  function New(owner: AccountId): (t: FungibleToken)
    ensures Valid(t) && t.totalSupply == 0
    ensures forall a :: BalanceOf(t, a) == 0
  {
    var m := map[owner := 0];
    SumRemove(m, owner);
    assert m - {owner} == map[];
    FungibleToken(m, 0)
  }

  /** internal_deposit: credit an account and grow the supply; either sum
      leaving u128 panics. */
  function Deposit(t: FungibleToken, a: AccountId, amount: u128): (r: Result<FungibleToken>)
    ensures r.Ok? <==> BalanceOf(t, a) + amount <= U128_MAX && t.totalSupply + amount <= U128_MAX
    ensures r.Err? ==> r.panic == (if BalanceOf(t, a) + amount <= U128_MAX then TotalSupplyOverflow else BalanceOverflow)
    ensures r.Ok? ==> r.value.totalSupply == t.totalSupply + amount
    ensures r.Ok? ==> BalanceOf(r.value, a) == BalanceOf(t, a) + amount
    ensures r.Ok? ==> forall b :: b != a ==> BalanceOf(r.value, b) == BalanceOf(t, b)
    ensures r.Ok? && Valid(t) ==> Valid(r.value)
  {
    var balance := BalanceOf(t, a);
    if balance + amount > U128_MAX then Err(BalanceOverflow)
    else if t.totalSupply + amount > U128_MAX then Err(TotalSupplyOverflow)
    else
      SumUpdate(t.accounts, a, balance + amount);
      Ok(FungibleToken(t.accounts[a := balance + amount], t.totalSupply + amount))
  }

  /** internal_withdraw: debit an account and shrink the supply; a debit of
      more than the balance panics. */
  function Withdraw(t: FungibleToken, a: AccountId, amount: u128): (r: Result<FungibleToken>)
    ensures r.Ok? <==> amount <= BalanceOf(t, a) && amount <= t.totalSupply
    ensures r.Err? ==> r.panic == (if amount <= BalanceOf(t, a) then TotalSupplyOverflow else InsufficientBalance)
    ensures Valid(t) ==> (r.Ok? <==> amount <= BalanceOf(t, a))
    ensures r.Ok? ==> r.value.totalSupply == t.totalSupply - amount
    ensures r.Ok? ==> BalanceOf(r.value, a) == BalanceOf(t, a) - amount
    ensures r.Ok? ==> forall b :: b != a ==> BalanceOf(r.value, b) == BalanceOf(t, b)
    ensures r.Ok? && Valid(t) ==> Valid(r.value)
  {
    var balance := BalanceOf(t, a);
    BalanceAtMostSupply(t, a);
    if amount > balance then Err(InsufficientBalance)
    else if amount > t.totalSupply then Err(TotalSupplyOverflow)
    else
      SumUpdate(t.accounts, a, balance - amount);
      Ok(FungibleToken(t.accounts[a := balance - amount], t.totalSupply - amount))
  }

  /** internal_transfer: a debit of the sender followed by a credit of the
      receiver. In a valid ledger it fails only when the sender's balance
      is short, and it keeps the total supply. */
  function Transfer(t: FungibleToken, sender: AccountId, receiver: AccountId, amount: u128): (r: Result<FungibleToken>)
    ensures Valid(t) ==> (r.Ok? <==> amount <= BalanceOf(t, sender))
    ensures Valid(t) && r.Err? ==> r.panic == InsufficientBalance
    ensures r.Ok? ==> r.value.totalSupply == t.totalSupply
    ensures r.Ok? && sender != receiver ==>
      && BalanceOf(r.value, sender) == BalanceOf(t, sender) - amount
      && BalanceOf(r.value, receiver) == BalanceOf(t, receiver) + amount
    ensures r.Ok? ==> forall b :: b != sender && b != receiver ==> BalanceOf(r.value, b) == BalanceOf(t, b)
    ensures r.Ok? && sender == receiver ==> BalanceOf(r.value, sender) == BalanceOf(t, sender)
    ensures r.Ok? && Valid(t) ==> Valid(r.value)
  {
    var debited :- Withdraw(t, sender, amount);
    BalanceAtMostSupply(debited, receiver);
    Deposit(debited, receiver, amount)
  }
}
