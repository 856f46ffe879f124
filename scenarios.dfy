/** Call sequences through the contract, from `new` onwards, with what they
    leave behind: the asynchronous start-up, the two-phase withdrawal and a
    priced swap. */
module AmmScenarios {
  import opened Wrappers
  import opened Near
  import opened Ledger
  import opened Utils
  import opened Amm

  /** A swap issued after new but before the on_get_metadata callbacks have
      run fails for want of metadata and changes nothing. */
  method SwapBeforeMetadata(env: Env, tokenA: AccountId, tokenB: AccountId, sellAmount: u128)
    returns (r: Result<u128>)
    requires tokenA != tokenB
    ensures r == Err(BuyTokenMetaNotFound)
  {
    var c := new Contract(env, tokenA, tokenB);
    r := c.Swap(env, tokenA, tokenB, sellAmount);
  }

  /** A user credited 100 by ft_on_transfer asks to withdraw 40: while the
      token contract's transfer is pending, and after it is reported
      failed, the local balance is still 100; once a withdrawal is
      reported successful it is 60. */
  method WithdrawTwoPhase(pool: AccountId, user: AccountId, token: AccountId, other: AccountId)
    returns (pending: Result<u128>, afterFailure: Result<u128>, afterSuccess: Result<u128>)
    requires token != other && token != pool
    ensures pending == Ok(100) && afterFailure == Ok(100) && afterSuccess == Ok(60)
  {
    var c := new Contract(Env(pool, pool, pool), token, other);
    var credited := c.FtOnTransfer(Env(pool, token, user), user, 100, "");
    var userEnv := Env(pool, user, user);
    var callbackEnv := Env(pool, pool, user);

    var request := c.WithdrawTokens(userEnv, token, 40);
    pending := c.FtBalanceOf(userEnv, token, user);
    var failed := c.WithdrawTokensCallback(callbackEnv, token, 40, Failed);
    afterFailure := c.FtBalanceOf(userEnv, token, user);

    request := c.WithdrawTokens(userEnv, token, 40);
    var succeeded := c.WithdrawTokensCallback(callbackEnv, token, 40, Successful(()));
    afterSuccess := c.FtBalanceOf(userEnv, token, user);
  }

  /** withdraw_tokens does not look at the local balance: a user credited
      100 can request 200, the request goes out, and when the token contract
      reports success the callback's debit panics, leaving the local balance
      at 100. */
  method WithdrawBeyondBalance(pool: AccountId, user: AccountId, token: AccountId, other: AccountId)
    returns (request: Result<WithdrawRequest>, callback: Result<()>, balance: Result<u128>)
    requires token != other && token != pool
    ensures request == Ok(WithdrawRequest(token, user, 200))
    ensures callback == Err(InsufficientBalance)
    ensures balance == Ok(100)
  {
    var c := new Contract(Env(pool, pool, pool), token, other);
    var credited := c.FtOnTransfer(Env(pool, token, user), user, 100, "");
    var userEnv := Env(pool, user, user);
    request := c.WithdrawTokens(userEnv, token, 200);
    callback := c.WithdrawTokensCallback(Env(pool, pool, user), token, 200, Successful(()));
    balance := c.FtBalanceOf(userEnv, token, user);
  }

  /** A fresh pool of a three-decimal token A and a one-decimal token B
      whose metadata callbacks have both arrived. */
  method CalculatorListed(pool: AccountId, tokenA: AccountId, tokenB: AccountId) returns (c: Contract)
    requires tokenA != tokenB
    ensures fresh(c) && c.Valid()
    ensures c.tokens == map[tokenA := New(pool), tokenB := New(pool)]
    ensures c.tokenMetadatas == map[tokenA := Metadata(3), tokenB := Metadata(1)]
  {
    c := new Contract(Env(pool, pool, pool), tokenA, tokenB);
    var metaA := c.OnGetMetadata(tokenA, Successful(Metadata(3)));
    var metaB := c.OnGetMetadata(tokenB, Successful(Metadata(1)));
  }

  /** A pool holding 1_000_000 of a three-decimal token A and 40_000 of a
      one-decimal token B, all of it on the contract's own account. */
  method CalculatorReserves(pool: AccountId, user: AccountId, tokenA: AccountId, tokenB: AccountId)
    returns (c: Contract)
    requires tokenA != tokenB && tokenA != pool && tokenB != pool && user != pool
    ensures fresh(c) && c.Valid()
    ensures c.tokens.Keys == {tokenA, tokenB}
    ensures c.tokenMetadatas == map[tokenA := Metadata(3), tokenB := Metadata(1)]
    ensures BalanceOf(c.tokens[tokenA], pool) == 1_000_000 && BalanceOf(c.tokens[tokenA], user) == 0
    ensures c.tokens[tokenA].totalSupply == 1_000_000
    ensures BalanceOf(c.tokens[tokenB], pool) == 40_000 && BalanceOf(c.tokens[tokenB], user) == 0
  {
    c := CalculatorListed(pool, tokenA, tokenB);
    var reserveA := c.FtOnTransfer(Env(pool, tokenA, pool), pool, 1_000_000, "");
    assert BalanceOf(c.tokens[tokenA], pool) == 1_000_000 && BalanceOf(c.tokens[tokenA], user) == 0;
    assert c.tokens[tokenA].totalSupply == 1_000_000;
    assert c.tokens[tokenB] == New(pool);
    var reserveB := c.FtOnTransfer(Env(pool, tokenB, pool), pool, 40_000, "");
  }

  /** That pool, with a user who has sent it 1_000_000 of A. */
  method CalculatorPool(pool: AccountId, user: AccountId, tokenA: AccountId, tokenB: AccountId)
    returns (c: Contract)
    requires tokenA != tokenB && tokenA != pool && tokenB != pool && user != pool
    ensures fresh(c) && c.Valid()
    ensures c.tokens.Keys == {tokenA, tokenB}
    ensures c.tokenMetadatas == map[tokenA := Metadata(3), tokenB := Metadata(1)]
    ensures BalanceOf(c.tokens[tokenA], pool) == 1_000_000 && BalanceOf(c.tokens[tokenA], user) == 1_000_000
    ensures BalanceOf(c.tokens[tokenB], pool) == 40_000 && BalanceOf(c.tokens[tokenB], user) == 0
  {
    c := CalculatorReserves(pool, user, tokenA, tokenB);
    var paid := c.FtOnTransfer(Env(pool, tokenA, user), user, 1_000_000, "");
  }

  /** The check_calculator numbers through the contract: in that pool the
      user swaps all 1_000_000 of A and receives 20_000 of B, half the
      pool's B reserve. */
  method CalculatorSwap(pool: AccountId, user: AccountId, tokenA: AccountId, tokenB: AccountId)
    returns (bought: Result<u128>, userA: Result<u128>, userB: Result<u128>, poolB: Result<u128>)
    requires tokenA != tokenB && tokenA != pool && tokenB != pool && user != pool
    ensures bought == Ok(20_000)
    ensures userA == Ok(0) && userB == Ok(20_000) && poolB == Ok(20_000)
  {
    var c := CalculatorPool(pool, user, tokenA, tokenB);
    SwapQuoteExample();
    var userEnv := Env(pool, user, user);
    bought := c.Swap(userEnv, tokenB, tokenA, 1_000_000);
    userA := c.FtBalanceOf(userEnv, tokenA, user);
    userB := c.FtBalanceOf(userEnv, tokenB, user);
    poolB := c.FtBalanceOf(userEnv, tokenB, pool);
  }

  /** A pool whose token A has one decimal and token B three, with empty
      reserves, and a user who has sent it 100 of A and 50 of B. */
  method FundedPool(pool: AccountId, user: AccountId, tokenA: AccountId, tokenB: AccountId)
    returns (c: Contract)
    requires tokenA != tokenB && tokenA != pool && tokenB != pool && user != pool
    ensures fresh(c) && c.Valid() && c.ownerId == pool
    ensures c.tokens.Keys == {tokenA, tokenB}
    ensures c.tokenMetadatas == map[tokenA := Metadata(1), tokenB := Metadata(3)]
    ensures BalanceOf(c.tokens[tokenA], pool) == 0 && BalanceOf(c.tokens[tokenA], user) == 100
    ensures BalanceOf(c.tokens[tokenB], pool) == 0 && BalanceOf(c.tokens[tokenB], user) == 50
    ensures c.tokenLp == New(pool)
  {
    c := new Contract(Env(pool, pool, pool), tokenA, tokenB);
    var metaA := c.OnGetMetadata(tokenA, Successful(Metadata(1)));
    var metaB := c.OnGetMetadata(tokenB, Successful(Metadata(3)));
    assert c.tokens == map[tokenA := New(pool), tokenB := New(pool)];
    var paidA := c.FtOnTransfer(Env(pool, tokenA, user), user, 100, "");
    assert BalanceOf(c.tokens[tokenA], user) == 100 && c.tokens[tokenB] == New(pool);
    var paidB := c.FtOnTransfer(Env(pool, tokenB, user), user, 50, "");
  }

  /** In that pool a user who is not the contract account adds 100 of A and
      50 of B (the owner check does not stop them): the share is
      (100 + 50) * 10^2 = 15_000, token B's amount being scaled by token A's
      decimal gap. */
  method ProvidedPool(pool: AccountId, user: AccountId, tokenA: AccountId, tokenB: AccountId)
    returns (c: Contract, added: Result<()>, shares: Result<u128>)
    requires tokenA != tokenB && tokenA != pool && tokenB != pool && user != pool
    ensures fresh(c) && c.Valid() && c.ownerId == pool
    ensures added == Ok(()) && shares == Ok(15_000)
    ensures c.tokens.Keys == {tokenA, tokenB}
    ensures BalanceOf(c.tokens[tokenA], pool) == 100 && BalanceOf(c.tokens[tokenA], user) == 0
    ensures BalanceOf(c.tokens[tokenB], pool) == 50 && BalanceOf(c.tokens[tokenB], user) == 0
    ensures BalanceOf(c.tokenLp, user) == 15_000 && c.tokenLp.totalSupply == 15_000
  {
    c := FundedPool(pool, user, tokenA, tokenB);
    var userEnv := Env(pool, user, user);
    assert Pow10(2) == 100;
    added := c.AddTokensToPool(userEnv, tokenA, 100, tokenB, 50);
    shares := c.FtBalanceOf(userEnv, pool, user);
  }

  /** Excluding from that pool burns the user's 15_000 shares and returns
      exactly what was added. */
  method LiquidityRoundTrip(pool: AccountId, user: AccountId, tokenA: AccountId, tokenB: AccountId)
    returns (excluded: Result<()>, sharesAfter: Result<u128>, userA: Result<u128>, userB: Result<u128>)
    requires tokenA != tokenB && tokenA != pool && tokenB != pool && user != pool
    ensures excluded == Ok(()) && sharesAfter == Ok(0) && userA == Ok(100) && userB == Ok(50)
  {
    var c, added, shares := ProvidedPool(pool, user, tokenA, tokenB);
    var userEnv := Env(pool, user, user);
    excluded := c.ExcludeTokensFromPool(userEnv, tokenA, tokenB);
    sharesAfter := c.FtBalanceOf(userEnv, pool, user);
    userA := c.FtBalanceOf(userEnv, tokenA, user);
    userB := c.FtBalanceOf(userEnv, tokenB, user);
  }
}
