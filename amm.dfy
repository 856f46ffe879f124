/** The AMM contract of contract/amm/src/lib.rs: a pool of two fungible
    tokens, their metadata and an LP share token. Every entry point checks
    its inputs, computes on copies of the ledgers and writes them back; a
    panic anywhere leaves the whole state as it was. */
module Amm {
  import opened Wrappers
  import opened Near
  import opened Utils
  import opened Ledger

  /** The part of a token's FungibleTokenMetadata the pool uses. */
  datatype Metadata = Metadata(decimals: u8)

  /** The outbound `ft_transfer` a withdrawal asks the token contract for;
      `withdraw_tokens_callback` later receives the same token and amount. */
  datatype WithdrawRequest = WithdrawRequest(tokenName: AccountId, receiver: AccountId, amount: u128)

  /** What swap pays out for `sellAmount`, given the pool's reserves x (sell
      token) and y (buy token): both reserves are brought to the larger of
      the two decimal counts, the raw sell amount is priced against them and
      the quote is brought back to the buy token's decimals. */
  function SwapQuote(x: u128, y: u128, sellDecimals: u8, buyDecimals: u8, sellAmount: u128): (r: Result<u128>)
    ensures r.Ok? ==> r.value <= y
  {
    var maxDecimals := Max(buyDecimals, sellDecimals);
    var xs :- AddDecimals(x, maxDecimals - sellDecimals);
    var ys :- AddDecimals(y, maxDecimals - buyDecimals);
    var dy :- CalcDy(xs, ys, sellAmount);
    // cannot panic: the same power of ten already scaled y
    var out := RemoveDecimals(dy, maxDecimals - buyDecimals).value;
    DivBelow(dy, Pow10(maxDecimals - buyDecimals), y);
    Ok(out)
  }

  /** The ledger work of swap once its checks have passed: the reserves x
      and y are read, the seller's tokens move to the pool, and the quote
      moves from the pool to the seller. Returns the amount bought and the
      new ledgers of the sell and the buy token. */
  function SwapLedgers(sellToken: FungibleToken, buyToken: FungibleToken, sellDecimals: u8, buyDecimals: u8,
                       pool: AccountId, user: AccountId, sellAmount: u128): (r: Result<(u128, FungibleToken, FungibleToken)>)
    ensures var quote := SwapQuote(BalanceOf(sellToken, pool), BalanceOf(buyToken, pool), sellDecimals, buyDecimals, sellAmount);
      && (r.Ok? ==> quote == Ok(r.value.0))
      && (Ledger.Valid(sellToken) && Ledger.Valid(buyToken) ==>
            && (r.Ok? <==> sellAmount <= BalanceOf(sellToken, user) && quote.Ok?)
            && (sellAmount > BalanceOf(sellToken, user) ==> r == Err(InsufficientBalance))
            && (sellAmount <= BalanceOf(sellToken, user) && quote.Err? ==> r == Err(quote.panic)))
    ensures r.Ok? ==>
      && Transfer(sellToken, user, pool, sellAmount) == Ok(r.value.1)
      && Transfer(buyToken, pool, user, r.value.0) == Ok(r.value.2)
    ensures r.Ok? && user != pool ==>
      && BalanceOf(r.value.1, user) == BalanceOf(sellToken, user) - sellAmount
      && BalanceOf(r.value.1, pool) == BalanceOf(sellToken, pool) + sellAmount
      && BalanceOf(r.value.2, user) == BalanceOf(buyToken, user) + r.value.0
      && BalanceOf(r.value.2, pool) == BalanceOf(buyToken, pool) - r.value.0
    ensures r.Ok? ==> r.value.1.totalSupply == sellToken.totalSupply && r.value.2.totalSupply == buyToken.totalSupply
    ensures r.Ok? && Ledger.Valid(sellToken) && Ledger.Valid(buyToken) ==> Ledger.Valid(r.value.1) && Ledger.Valid(r.value.2)
  {
    // the pool's reserves, read before the seller's tokens arrive
    var x := BalanceOf(sellToken, pool);
    var y := BalanceOf(buyToken, pool);
    var newSell :- Transfer(sellToken, user, pool, sellAmount);
    var buyAmount :- SwapQuote(x, y, sellDecimals, buyDecimals, sellAmount);
    var newBuy :- Transfer(buyToken, pool, user, buyAmount);
    Ok((buyAmount, newSell, newBuy))
  }

  /** With equal decimals no scaling happens and swap quotes calc_dy. */
  lemma SwapQuoteSameDecimals(x: u128, y: u128, decimals: u8, sellAmount: u128)
    ensures SwapQuote(x, y, decimals, decimals, sellAmount) == CalcDy(x, y, sellAmount)
  {
  }

  /** The check_calculator scenario as swap prices it: 1_000_000 of a
      three-decimal token sold into reserves of 1_000_000 and 40_000 (one
      decimal) buys 20_000. */
  lemma SwapQuoteExample()
    ensures SwapQuote(1_000_000, 40_000, 3, 1, 1_000_000) == Ok(20_000)
  {
    CheckCalculator();
  }

  /** A sale can be priced at nothing: selling 1 of a three-decimal token
      into reserves of 1_000_000 and 1 (one decimal) buys 0, so the seller
      pays and receives nothing. */
  lemma SwapQuoteCanPayNothing()
    ensures SwapQuote(1_000_000, 1, 3, 1, 1) == Ok(0)
  {
    assert Pow10(2) == 100;
  }

  /** The LP share minted for a deposit: both amounts are scaled by token A's
      distance to the larger decimal count, token B's amount included. */
  function LpShare(amountA: u128, amountB: u128, decimalsA: u8, decimalsB: u8): (r: Result<u128>)
    ensures var gap := Max(decimalsA, decimalsB) - decimalsA;
      r.Ok? <==> gap <= 38 && amountA * Pow10(gap) + amountB * Pow10(gap) <= U128_MAX
    ensures var gap := Max(decimalsA, decimalsB) - decimalsA;
      r.Ok? ==> r.value == (amountA + amountB) * Pow10(gap)
  {
    var maxDecimals := Max(decimalsA, decimalsB);
    var scaledA :- AddDecimals(amountA, maxDecimals - decimalsA);
    var scaledB :- AddDecimals(amountB, maxDecimals - decimalsA);
    CheckedAdd(scaledA, scaledB)
  }

  /** What exclude_tokens_from_pool pays out of one reserve to a caller
      holding `callerShares` of an LP supply `totalSupply`:
      totalSupply * reserve / callerShares. */
  function ExclusionPayout(totalSupply: u128, reserve: u128, callerShares: u128): (r: Result<u128>)
    ensures r.Ok? <==> totalSupply * reserve <= U128_MAX && callerShares != 0
    ensures r.Err? ==> r.panic == (if totalSupply * reserve <= U128_MAX then DivisionByZero else ArithmeticOverflow)
    ensures r.Ok? ==> r.value * callerShares <= totalSupply * reserve < (r.value + 1) * callerShares
  {
    var product :- CheckedMul(totalSupply, reserve);
    if callerShares == 0 then CheckedDiv(product, callerShares) else
    DivMulBounds(product, callerShares);
    CheckedDiv(product, callerShares)
  }

  /** Because the caller's shares never exceed the supply, the payout is at
      least the whole reserve; it equals the reserve when the caller holds
      every share. */
  lemma ExclusionPayoutAtLeastReserve(totalSupply: u128, reserve: u128, callerShares: u128)
    requires callerShares <= totalSupply
    requires ExclusionPayout(totalSupply, reserve, callerShares).Ok?
    ensures ExclusionPayout(totalSupply, reserve, callerShares).value >= reserve
    ensures callerShares == totalSupply ==> ExclusionPayout(totalSupply, reserve, callerShares).value == reserve
  {
    MulMonotone(callerShares, totalSupply, reserve);
    assert reserve * callerShares <= totalSupply * reserve;
    MulDivCancel(reserve, callerShares);
    DivMonotone(reserve * callerShares, totalSupply * reserve, callerShares);
    if callerShares == totalSupply {
      assert totalSupply * reserve == reserve * callerShares;
    }
  }

  /** The ledger work of add_tokens_to_pool once its checks have passed:
      with the pool's reserves in tokens A and B, a deposit is accepted only
      in exactly their proportion; the payer's tokens move to the pool and
      the payer is credited the LP share. Returns the new ledgers of A, B
      and the LP token. */
  function ReplenishPool(tokenA: FungibleToken, tokenB: FungibleToken, tokenLp: FungibleToken,
                         decimalsA: u8, decimalsB: u8, pool: AccountId, payer: AccountId,
                         amountA: u128, amountB: u128): (r: Result<(FungibleToken, FungibleToken, FungibleToken)>)
    ensures var poolA, poolB := BalanceOf(tokenA, pool), BalanceOf(tokenB, pool);
      && (poolA * amountB > U128_MAX || poolB * amountA > U128_MAX ==> r == Err(ArithmeticOverflow))
      && (poolA * amountB <= U128_MAX && poolB * amountA <= U128_MAX && poolA * amountB != poolB * amountA ==>
            r == Err(IncorrectProportions))
      && (r.Ok? ==> poolA * amountB == poolB * amountA)
    ensures Ledger.Valid(tokenA) && Ledger.Valid(tokenB) ==>
      (r.Ok? <==>
        && BalanceOf(tokenA, pool) * amountB == BalanceOf(tokenB, pool) * amountA
        && BalanceOf(tokenA, pool) * amountB <= U128_MAX
        && amountA <= BalanceOf(tokenA, payer) && amountB <= BalanceOf(tokenB, payer)
        && LpShare(amountA, amountB, decimalsA, decimalsB).Ok?
        && Deposit(tokenLp, payer, LpShare(amountA, amountB, decimalsA, decimalsB).value).Ok?)
    ensures r.Ok? ==>
      && LpShare(amountA, amountB, decimalsA, decimalsB).Ok?
      && var share := LpShare(amountA, amountB, decimalsA, decimalsB).value;
      && Transfer(tokenA, payer, pool, amountA) == Ok(r.value.0)
      && Transfer(tokenB, payer, pool, amountB) == Ok(r.value.1)
      && Deposit(tokenLp, payer, share) == Ok(r.value.2)
      && BalanceOf(r.value.2, payer) == BalanceOf(tokenLp, payer) + share
      && r.value.2.totalSupply == tokenLp.totalSupply + share
    ensures r.Ok? && payer != pool ==>
      && BalanceOf(r.value.0, pool) == BalanceOf(tokenA, pool) + amountA
      && BalanceOf(r.value.1, pool) == BalanceOf(tokenB, pool) + amountB
    ensures r.Ok? && Ledger.Valid(tokenA) && Ledger.Valid(tokenB) && Ledger.Valid(tokenLp) ==>
      Ledger.Valid(r.value.0) && Ledger.Valid(r.value.1) && Ledger.Valid(r.value.2)
  {
    var poolABalance := BalanceOf(tokenA, pool);
    var poolBBalance := BalanceOf(tokenB, pool);
    var lhs :- CheckedMul(poolABalance, amountB);
    var rhs :- CheckedMul(poolBBalance, amountA);
    if lhs != rhs then Err(IncorrectProportions) else
    var newA :- Transfer(tokenA, payer, pool, amountA);
    var newB :- Transfer(tokenB, payer, pool, amountB);
    var share :- LpShare(amountA, amountB, decimalsA, decimalsB);
    var newLp :- Deposit(tokenLp, payer, share);
    Ok((newA, newB, newLp))
  }

  /** The ledger work of exclude_tokens_from_pool once its checks have
      passed: the caller's whole LP balance is burnt and each reserve pays
      out totalSupply * reserve / callerShares to the caller. Returns the new
      ledgers of A, B and the LP token. */
  function ExcludeFromPool(tokenA: FungibleToken, tokenB: FungibleToken, tokenLp: FungibleToken,
                           pool: AccountId, caller: AccountId): (r: Result<(FungibleToken, FungibleToken, FungibleToken)>)
    ensures BalanceOf(tokenLp, caller) == 0 ==> r.Err?
    ensures var supply, shares := tokenLp.totalSupply, BalanceOf(tokenLp, caller);
      var payoutA := ExclusionPayout(supply, BalanceOf(tokenA, pool), shares);
      var payoutB := ExclusionPayout(supply, BalanceOf(tokenB, pool), shares);
      && (payoutA.Err? ==> r == Err(payoutA.panic))
      && (payoutA.Ok? && payoutB.Err? ==> r == Err(payoutB.panic))
      && (Ledger.Valid(tokenA) && Ledger.Valid(tokenB) && Ledger.Valid(tokenLp) ==>
            (r.Ok? <==> payoutA.Ok? && payoutB.Ok?
                        && Transfer(tokenA, pool, caller, payoutA.value).Ok?
                        && Transfer(tokenB, pool, caller, payoutB.value).Ok?))
      && (r.Ok? ==>
            && payoutA.Ok? && payoutB.Ok?
            && Withdraw(tokenLp, caller, shares) == Ok(r.value.2)
            && Transfer(tokenA, pool, caller, payoutA.value) == Ok(r.value.0)
            && Transfer(tokenB, pool, caller, payoutB.value) == Ok(r.value.1))
    ensures r.Ok? ==>
      && BalanceOf(r.value.2, caller) == 0
      && r.value.2.totalSupply == tokenLp.totalSupply - BalanceOf(tokenLp, caller)
    // the payout is never below the reserve, so success empties both
    // reserves into the caller
    ensures r.Ok? && Ledger.Valid(tokenLp) && caller != pool ==>
      && BalanceOf(r.value.0, pool) == 0 && BalanceOf(r.value.1, pool) == 0
      && BalanceOf(r.value.0, caller) == BalanceOf(tokenA, caller) + BalanceOf(tokenA, pool)
      && BalanceOf(r.value.1, caller) == BalanceOf(tokenB, caller) + BalanceOf(tokenB, pool)
    ensures r.Ok? && Ledger.Valid(tokenA) && Ledger.Valid(tokenB) && Ledger.Valid(tokenLp) ==>
      Ledger.Valid(r.value.0) && Ledger.Valid(r.value.1) && Ledger.Valid(r.value.2)
  {
    var poolTotalA := BalanceOf(tokenA, pool);
    var poolTotalB := BalanceOf(tokenB, pool);
    // the total supply over the caller's balance, not the other way round
    var a :- ExclusionPayout(tokenLp.totalSupply, poolTotalA, BalanceOf(tokenLp, caller));
    var b :- ExclusionPayout(tokenLp.totalSupply, poolTotalB, BalanceOf(tokenLp, caller));
    var newLp :- Withdraw(tokenLp, caller, BalanceOf(tokenLp, caller));
    var newA :- Transfer(tokenA, pool, caller, a);
    var newB :- Transfer(tokenB, pool, caller, b);
    BalanceAtMostSupply(tokenLp, caller);
    ExclusionPayoutAtLeastReserve(tokenLp.totalSupply, poolTotalA, BalanceOf(tokenLp, caller));
    ExclusionPayoutAtLeastReserve(tokenLp.totalSupply, poolTotalB, BalanceOf(tokenLp, caller));
    Ok((newA, newB, newLp))
  }

  class Contract {
    var ownerId: AccountId
    /** token contract id -> the pool's ledger of that token */
    var tokens: map<AccountId, FungibleToken>
    /** token contract id -> its metadata, once fetched */
    var tokenMetadatas: map<AccountId, Metadata>
    /** the LP share token */
    var tokenLp: FungibleToken

    /** Every ledger's supply is the sum of its balances, and metadata is
        only ever recorded for a supported token. */
    ghost predicate Valid()
      reads this
    {
      && Ledger.Valid(tokenLp)
      && (forall t | t in tokens :: Ledger.Valid(tokens[t]))
      && tokenMetadatas.Keys <= tokens.Keys
    }

    /** new: the owner is the contract's own account, both tokens get an
        empty ledger with that account registered, and no metadata is known
        until the two on_get_metadata callbacks arrive. */
    constructor (env: Env, tokenAContract: AccountId, tokenBContract: AccountId)
      ensures Valid()
      ensures ownerId == env.currentAccount
      ensures tokens == map[tokenAContract := New(env.currentAccount), tokenBContract := New(env.currentAccount)]
      ensures tokens.Keys == {tokenAContract, tokenBContract}
      ensures tokenMetadatas == map[]
      ensures tokenLp == New(env.currentAccount)
    {
      var owner := env.currentAccount;
      ownerId := owner;
      tokens := map[tokenAContract := New(owner)][tokenBContract := New(owner)];
      tokenMetadatas := map[];
      tokenLp := New(owner);
    }

    /** ft_balance_of: the LP balance when asked about the contract's own
        account, otherwise the balance in the named token's ledger. */
    function FtBalanceOf(env: Env, tokenName: AccountId, accountId: AccountId): (r: Result<u128>)
      reads this
      ensures tokenName == env.currentAccount ==> r == Ok(BalanceOf(tokenLp, accountId))
      ensures tokenName != env.currentAccount ==> (r.Ok? <==> tokenName in tokens)
      ensures tokenName != env.currentAccount && r.Ok? ==> r.value == BalanceOf(tokens[tokenName], accountId)
      ensures r.Err? ==> r.panic == TokenNotSupported
      ensures Valid() && r.Ok? && tokenName == env.currentAccount ==> r.value <= tokenLp.totalSupply
      ensures Valid() && r.Ok? && tokenName != env.currentAccount ==> r.value <= tokens[tokenName].totalSupply
    {
      if tokenName == env.currentAccount then
        BalanceAtMostSupply(tokenLp, accountId);
        Ok(BalanceOf(tokenLp, accountId))
      else if tokenName in tokens then
        BalanceAtMostSupply(tokens[tokenName], accountId);
        Ok(BalanceOf(tokens[tokenName], accountId))
      else
        Err(TokenNotSupported)
    }

    /** swap: sell `sellAmount` of one pool token for the other, priced by
        the constant-product rule on the reserves read before the seller's
        tokens arrive. */
    method Swap(env: Env, buyTokenId: AccountId, sellTokenId: AccountId, sellAmount: u128) returns (r: Result<u128>)
      requires Valid()
      modifies this
      ensures Valid()
      ensures r.Err? ==> unchanged(this)
      ensures buyTokenId == sellTokenId ==> r == Err(TokensEqual)
      ensures buyTokenId != sellTokenId && buyTokenId !in old(tokens) ==> r == Err(BuyTokenNotSupported)
      ensures buyTokenId != sellTokenId && buyTokenId in old(tokens) && sellTokenId !in old(tokens) ==>
        r == Err(SellTokenNotSupported)
      ensures buyTokenId != sellTokenId && buyTokenId in old(tokens) && sellTokenId in old(tokens) ==>
        && (buyTokenId !in old(tokenMetadatas) ==> r == Err(BuyTokenMetaNotFound))
        && (buyTokenId in old(tokenMetadatas) && sellTokenId !in old(tokenMetadatas) ==> r == Err(SellTokenMetaNotFound))
      // past the checks the outcome is that of the ledger work
      ensures (buyTokenId != sellTokenId && buyTokenId in old(tokenMetadatas) && sellTokenId in old(tokenMetadatas)) ==>
        var outcome := old(SwapLedgers(tokens[sellTokenId], tokens[buyTokenId],
                                       tokenMetadatas[sellTokenId].decimals, tokenMetadatas[buyTokenId].decimals,
                                       env.currentAccount, env.predecessor, sellAmount));
        && (outcome.Err? ==> r == Err(outcome.panic))
        && (outcome.Ok? ==>
              && r == Ok(outcome.value.0)
              && tokens == old(tokens)[buyTokenId := outcome.value.2][sellTokenId := outcome.value.1])
      ensures tokenLp == old(tokenLp) && tokenMetadatas == old(tokenMetadatas) && ownerId == old(ownerId)
      ensures tokens.Keys == old(tokens.Keys)
    {
      if buyTokenId == sellTokenId {
        return Err(TokensEqual);
      }
      if buyTokenId !in tokens {
        return Err(BuyTokenNotSupported);
      }
      var buyToken := tokens[buyTokenId];
      if sellTokenId !in tokens {
        return Err(SellTokenNotSupported);
      }
      var sellToken := tokens[sellTokenId];
      if buyTokenId !in tokenMetadatas {
        return Err(BuyTokenMetaNotFound);
      }
      var buyTokenMeta := tokenMetadatas[buyTokenId];
      if sellTokenId !in tokenMetadatas {
        return Err(SellTokenMetaNotFound);
      }
      var sellTokenMeta := tokenMetadatas[sellTokenId];

      var outcome :- SwapLedgers(sellToken, buyToken, sellTokenMeta.decimals, buyTokenMeta.decimals,
                                 env.currentAccount, env.predecessor, sellAmount);
      tokens := tokens[buyTokenId := outcome.2];
      tokens := tokens[sellTokenId := outcome.1];
      return Ok(outcome.0);
    }

    /** add_tokens_to_pool: the payer deposits amounts of both tokens in the
        pool's current proportion and is credited LP shares. */
    method AddTokensToPool(env: Env, tokenAName: AccountId, tokenAAmount: u128, tokenBName: AccountId, tokenBAmount: u128)
      returns (r: Result<()>)
      requires Valid()
      modifies this
      ensures Valid()
      ensures r.Err? ==> unchanged(this)
      ensures old(ownerId) != env.currentAccount ==> r == Err(NotOwner)
      ensures old(ownerId) == env.currentAccount ==>
        && (tokenAName == tokenBName ==> r == Err(TokensEqual))
        && (tokenAName != tokenBName && tokenAName !in old(tokens) ==> r == Err(TokenANotSupported))
        && (tokenAName != tokenBName && tokenAName in old(tokens) && tokenBName !in old(tokens) ==> r == Err(TokenBNotSupported))
      ensures old(ownerId) == env.currentAccount && tokenAName != tokenBName && tokenAName in old(tokens) && tokenBName in old(tokens) ==>
        && (tokenAName !in old(tokenMetadatas) ==> r == Err(TokenAMetaNotFound))
        && (tokenAName in old(tokenMetadatas) && tokenBName !in old(tokenMetadatas) ==> r == Err(TokenBMetaNotFound))
      // past the checks the outcome is that of the ledger work
      ensures (old(ownerId) == env.currentAccount && tokenAName != tokenBName
               && tokenAName in old(tokenMetadatas) && tokenBName in old(tokenMetadatas)) ==>
        var outcome := old(ReplenishPool(tokens[tokenAName], tokens[tokenBName], tokenLp,
                                         tokenMetadatas[tokenAName].decimals, tokenMetadatas[tokenBName].decimals,
                                         env.currentAccount, env.predecessor, tokenAAmount, tokenBAmount));
        && (outcome.Err? ==> r == Err(outcome.panic))
        && (outcome.Ok? ==>
              && r == Ok(())
              && tokens == old(tokens)[tokenAName := outcome.value.0][tokenBName := outcome.value.1]
              && tokenLp == outcome.value.2)
      ensures tokenMetadatas == old(tokenMetadatas) && ownerId == old(ownerId)
      ensures tokens.Keys == old(tokens.Keys)
    {
      if ownerId != env.currentAccount {
        return Err(NotOwner);
      }
      if tokenAName == tokenBName {
        return Err(TokensEqual);
      }
      if tokenAName !in tokens {
        return Err(TokenANotSupported);
      }
      var tokenA := tokens[tokenAName];
      if tokenBName !in tokens {
        return Err(TokenBNotSupported);
      }
      var tokenB := tokens[tokenBName];
      if tokenAName !in tokenMetadatas {
        return Err(TokenAMetaNotFound);
      }
      var tokenAMeta := tokenMetadatas[tokenAName];
      if tokenBName !in tokenMetadatas {
        return Err(TokenBMetaNotFound);
      }
      var tokenBMeta := tokenMetadatas[tokenBName];

      var ledgers :- ReplenishPool(tokenA, tokenB, tokenLp, tokenAMeta.decimals, tokenBMeta.decimals,
                                   env.currentAccount, env.predecessor, tokenAAmount, tokenBAmount);
      tokenLp := ledgers.2;
      tokens := tokens[tokenAName := ledgers.0];
      tokens := tokens[tokenBName := ledgers.1];
      return Ok(());
    }

    /** exclude_tokens_from_pool: burn all of the caller's LP shares and pay
        out totalSupply * reserve / callerShares of each reserve. */
    method ExcludeTokensFromPool(env: Env, tokenAName: AccountId, tokenBName: AccountId) returns (r: Result<()>)
      requires Valid()
      modifies this
      ensures Valid()
      ensures r.Err? ==> unchanged(this)
      ensures old(ownerId) != env.currentAccount ==> r == Err(NotOwner)
      ensures old(ownerId) == env.currentAccount ==>
        && (tokenAName == tokenBName ==> r == Err(TokensEqual))
        && (tokenAName != tokenBName && (tokenAName !in old(tokens) || tokenBName !in old(tokens)) ==> r == Err(TokenNotSupported))
      // past the checks the outcome is that of the ledger work
      ensures (old(ownerId) == env.currentAccount && tokenAName != tokenBName
               && tokenAName in old(tokens) && tokenBName in old(tokens)) ==>
        var outcome := old(ExcludeFromPool(tokens[tokenAName], tokens[tokenBName], tokenLp, env.currentAccount, env.predecessor));
        && (outcome.Err? ==> r == Err(outcome.panic))
        && (outcome.Ok? ==>
              && r == Ok(())
              && tokens == old(tokens)[tokenAName := outcome.value.0][tokenBName := outcome.value.1]
              && tokenLp == outcome.value.2)
      // a caller without LP shares cannot exclude anything; one who can is left with none
      ensures old(BalanceOf(tokenLp, env.predecessor)) == 0 ==> r.Err?
      ensures r.Ok? ==> BalanceOf(tokenLp, env.predecessor) == 0
      ensures tokenMetadatas == old(tokenMetadatas) && ownerId == old(ownerId)
      ensures tokens.Keys == old(tokens.Keys)
    {
      if ownerId != env.currentAccount {
        return Err(NotOwner);
      }
      if tokenAName == tokenBName {
        return Err(TokensEqual);
      }
      if tokenAName !in tokens {
        return Err(TokenNotSupported);
      }
      var tokenA := tokens[tokenAName];
      if tokenBName !in tokens {
        return Err(TokenNotSupported);
      }
      var tokenB := tokens[tokenBName];

      var ledgers :- ExcludeFromPool(tokenA, tokenB, tokenLp, env.currentAccount, env.predecessor);
      tokenLp := ledgers.2;
      tokens := tokens[tokenAName := ledgers.0];
      tokens := tokens[tokenBName := ledgers.1];
      return Ok(());
    }

    /** withdraw_tokens: check that the token is supported and ask its
        contract to transfer `amount` to the caller; nothing local changes
        until withdraw_tokens_callback reports the outcome. */
    method WithdrawTokens(env: Env, tokenName: AccountId, amount: u128) returns (r: Result<WithdrawRequest>)
      ensures r.Ok? <==> tokenName in tokens
      ensures r.Err? ==> r.panic == TokenNotSupported
      ensures r.Ok? ==> r.value.tokenName == tokenName && r.value.receiver == env.predecessor && r.value.amount == amount
    {
      var accountId := env.predecessor;
      if tokenName !in tokens {
        return Err(TokenNotSupported);
      }
      return Ok(WithdrawRequest(tokenName, accountId, amount));
    }

    /** withdraw_tokens_callback: once the token contract reports the
        transfer, debit the signer's local balance; a failed transfer
        changes nothing. */
    method WithdrawTokensCallback(env: Env, tokenName: AccountId, amount: u128, promise: PromiseResult<()>)
      returns (r: Result<()>)
      requires Valid()
      modifies this
      ensures Valid()
      ensures r.Err? || promise.Failed? ==> unchanged(this)
      ensures promise.Failed? ==> r == Ok(())
      ensures promise.Successful? && tokenName !in old(tokens) ==> r == Err(UnwrapOnNone)
      ensures promise.Successful? && tokenName in old(tokens) ==>
        (r.Ok? <==> amount <= old(BalanceOf(tokens[tokenName], env.signer)))
      ensures promise.Successful? && tokenName in old(tokens) && r.Err? ==> r.panic == InsufficientBalance
      ensures promise.Successful? && r.Ok? ==>
        && tokens == old(tokens)[tokenName := Withdraw(old(tokens[tokenName]), env.signer, amount).value]
        && BalanceOf(tokens[tokenName], env.signer) == old(BalanceOf(tokens[tokenName], env.signer)) - amount
        && tokens[tokenName].totalSupply == old(tokens[tokenName].totalSupply) - amount
        && (forall a | a != env.signer :: BalanceOf(tokens[tokenName], a) == old(BalanceOf(tokens[tokenName], a)))
        && tokenLp == old(tokenLp) && tokenMetadatas == old(tokenMetadatas) && ownerId == old(ownerId)
      ensures tokens.Keys == old(tokens.Keys)
    {
      match promise
      case Failed =>
        return Ok(());
      case Successful(_) =>
        var accountId := env.signer;
        if tokenName !in tokens {
          return Err(UnwrapOnNone);
        }
        var token := tokens[tokenName];
        token :- Withdraw(token, accountId, amount);
        tokens := tokens[tokenName := token];
        return Ok(());
    }

    /** on_get_metadata: record the metadata a token contract returned for
        one of the pool's tokens. */
    method OnGetMetadata(contractId: AccountId, promise: PromiseResult<Metadata>) returns (r: Result<()>)
      requires Valid()
      modifies this
      ensures Valid()
      ensures r.Err? ==> unchanged(this)
      ensures promise.Failed? ==> r == Err(CallbackNotSuccessful)
      ensures promise.Successful? ==> (r.Ok? <==> contractId in old(tokens))
      ensures promise.Successful? && r.Err? ==> r.panic == TokenNotSupported
      ensures r.Ok? ==> promise.Successful? && tokenMetadatas == old(tokenMetadatas)[contractId := promise.value]
      ensures tokens == old(tokens) && tokenLp == old(tokenLp) && ownerId == old(ownerId)
    {
      match promise
      case Failed =>
        return Err(CallbackNotSuccessful);
      case Successful(metadata) =>
        if contractId !in tokens {
          return Err(TokenNotSupported);
        }
        tokenMetadatas := tokenMetadatas[contractId := metadata];
        return Ok(());
    }

    /** ft_on_transfer: a token contract (the caller) reports that
        `senderId` sent it `amount` for the pool; credit the sender locally
        and keep none of it back. */
    method FtOnTransfer(env: Env, senderId: AccountId, amount: u128, msg: string) returns (r: Result<u128>)
      requires Valid()
      modifies this
      ensures Valid()
      ensures r.Err? ==> unchanged(this)
      ensures env.predecessor !in old(tokens) ==> r == Err(TokenNotSupported)
      ensures env.predecessor in old(tokens) ==> (r.Ok? <==> Deposit(old(tokens[env.predecessor]), senderId, amount).Ok?)
      ensures r.Ok? ==>
        && r.value == 0
        && tokens == old(tokens)[env.predecessor := Deposit(old(tokens[env.predecessor]), senderId, amount).value]
        && BalanceOf(tokens[env.predecessor], senderId) == old(BalanceOf(tokens[env.predecessor], senderId)) + amount
        && tokens[env.predecessor].totalSupply == old(tokens[env.predecessor].totalSupply) + amount
        && tokenLp == old(tokenLp) && tokenMetadatas == old(tokenMetadatas) && ownerId == old(ownerId)
      ensures tokens.Keys == old(tokens.Keys)
    {
      var tokenName := env.predecessor;
      if tokenName !in tokens {
        return Err(TokenNotSupported);
      }
      var token := tokens[tokenName];
      token :- Deposit(token, senderId, amount);
      tokens := tokens[tokenName := token];
      return Ok(0);
    }
  }
}
