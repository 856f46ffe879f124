# NEAR constant-product AMM pool, modelled in Dafny

This project models the core of a small NEAR smart contract: an automated
market maker (AMM) pool over two fungible tokens, plus an LP (liquidity
provider) share token.

- **Pricing arithmetic** (`contract/amm/src/utils.rs`) is modelled as pure functions on `u128` with Rust's overflow checks:
  - `add_decimals` / `remove_decimals` scale a value by a power of ten;
  - `calc_dy` is the constant-product quote `y - x*y/(x+dx)`.
- **The contract** (`contract/amm/src/lib.rs`) is modelled as the class `Amm.Contract`. Its fields are the same as the Rust struct:
  - the owner id;
  - a map from token contract id to the pool's ledger of that token;
  - a map from token id to metadata;
  - the LP ledger.
- Each state-changing entry point is a method with a `modifies this` contract. It checks its inputs in the source's order, does the ledger work on copies of the ledgers, and writes the copies back.
- `withdraw_tokens` changes no local state, so it is a method without `modifies`. The view `ft_balance_of` is a function that reads the contract.
- The ledger work of `swap`, `add_tokens_to_pool` and `exclude_tokens_from_pool` is a pure function (`SwapLedgers`, `ReplenishPool`, `ExcludeFromPool`). Each of these functions carries its own contract.
- A NEAR panic reverts everything the call did. So every method returns `Result` (`Ok` or `Err(panic)`), and on `Err` it promises `unchanged(this)`.
- The invariant `Contract.Valid()` is kept by every method. It says two things:
  - in every ledger, the total supply is the sum of the balances;
  - metadata is only ever recorded for a supported token.

Runtime values are explicit parameters:

- `env::current_account_id()`, `env::predecessor_account_id()` and `env::signer_account_id()` are fields of `Near.Env`.
- The runtime always reports the contract's own account as the current account. The model takes `currentAccount` as a parameter of each call and does not tie it to the account that ran `new`. So `Err(NotOwner)` is reachable in the model only when a later call passes a different `currentAccount`. The deployed contract assumes that account stays the same.
- Each callback (`on_get_metadata`, `withdraw_tokens_callback`) is a separate method. It receives the outcome of its promise as a `PromiseResult`: `Failed` or `Successful`.

The `near_contract_standards` `FungibleToken` library is not part of this model. It is abstracted as the datatype `Ledger.FungibleToken`:

- a map from account to balance, plus a total supply;
- a debit panics when it exceeds the balance, and a credit panics when the balance or the supply would leave `u128`;
- a transfer is a debit followed by a credit.

`AmmScenarios` chains calls from `new` onwards and proves what they leave behind. They cover:

- a swap before the metadata callbacks arrive;
- the two-phase withdrawal, and a withdrawal larger than the local balance;
- the `check_calculator` numbers as a real swap;
- a user other than the contract account adding liquidity and then excluding it.

The contract registers only its own account in each ledger (utils.rs:21, called at lib.rs:44-46), and it offers no way to register any other account. In the deployed contract, every ledger call for another account therefore panics because that account is not registered:

- crediting a sender in `ft_on_transfer` (lib.rs:277);
- a user's transfers and LP deposit in `swap`, `add_tokens_to_pool` and `exclude_tokens_from_pool` (lib.rs:93, 149, 156, 185, 195).

When the user is the contract account itself, the library's sender ≠ receiver check panics instead. The user-side steps of these scenarios show the model with registration abstracted away; the deployed program cannot perform them.

Behaviours of the code that the model reproduces as they are:

- `swap` passes the raw `sell_amount` to `calc_dy` while both reserves are rescaled (lib.rs:97-101). It reads the reserves before the seller's transfer (lib.rs:89-93).
- `calc_dy` rounds the output up, to the ceiling of `y*dx/(x+dx)`. So it can quote the whole reserve: `CalcDy(1, 1, 5) == Ok(1)`. The output is not always strictly below `y` when `dx > 0`; `Utils.CalcDyBelowReserve` gives the exact condition.
- The LP share scales token B's amount with token A's decimal gap (lib.rs:152-153).
- `exclude_tokens_from_pool` pays `total_supply * reserve / caller_balance` (lib.rs:184-187). That payout is never below the whole reserve. So the call succeeds only when it drains both reserves into the caller; otherwise the transfer out of the pool panics. `Amm.ExcludeFromPool` proves this.
- The owner assertion (lib.rs:126, 171) compares the stored owner with the current account. `new` stored exactly that account (lib.rs:43), so the check admits any caller. Adding and excluding liquidity is therefore not restricted to the owner.
- `withdraw_tokens` pays out to the predecessor account. `withdraw_tokens_callback` debits the signer account.
- `withdraw_tokens` never checks the local balance (lib.rs:203-215). A request larger than the balance still goes out to the token contract. If the token contract reports success, the callback's debit panics (lib.rs:229) and the local balance is left untouched. `AmmScenarios.WithdrawBeyondBalance` shows this.
- A swap can be priced at 0 (`Amm.SwapQuoteCanPayNothing`). The seller then pays and receives nothing; in the deployed library, the positive-amount assertion of the second transfer reverts such a swap.

## Model

| member | source | states |
|---|---|---|
| `Near.CheckedAdd` | contract/amm/src/lib.rs:152-153 | `u128` addition: succeeds exactly when the sum fits, giving the sum, and panics with overflow otherwise |
| `Near.CheckedMul` | contract/amm/src/lib.rs:148 | `u128` multiplication (also at utils.rs:5, 16 and lib.rs:184-187): succeeds exactly when the product fits, giving the product, and panics with overflow otherwise |
| `Near.CheckedDiv` | contract/amm/src/utils.rs:9 | `u128` division (also at utils.rs:16 and lib.rs:184-187): panics exactly when the divisor is 0, and otherwise gives the quotient |
| `Near.CheckedDivRoundsDown` | contract/amm/src/utils.rs:9 | the quotient `q` rounds down: `q * b <= a < (q + 1) * b` |
| `Near.CheckedSub` | contract/amm/src/utils.rs:16 | `u128` subtraction: succeeds exactly when `b <= a`, giving `r` with `r + b == a`, and panics with overflow otherwise |
| `Near.Max` | contract/amm/src/lib.rs:96 | `std::cmp::max` on `u8` (also at lib.rs:145): the result is at least both arguments and equals one of them |
| `Utils.Pow10U128` | contract/amm/src/utils.rs:5 | `10_u128.pow(d)` is `10^d`, and panics with overflow exactly when `d > 38` |
| `Utils.Pow10Fits` | contract/amm/src/utils.rs:5 | `10^d` fits in `u128` if and only if `d <= 38` |
| `Utils.AddDecimals` | contract/amm/src/utils.rs:4-6 | result is `value * 10^d`; it panics with overflow exactly when the power or the product leaves `u128` |
| `Utils.RemoveDecimals` | contract/amm/src/utils.rs:8-10 | result is the floor of `value / 10^d` (never above `value`); it panics only when `d > 38` |
| `Utils.AddRemoveRoundTrip` | contract/amm/src/utils.rs:4-10 | if scaling up succeeds, scaling back down returns the original value |
| `Utils.RemoveAddLosesDust` | contract/amm/src/utils.rs:4-10 | scaling down then up always succeeds, never gives more than the value, and loses less than `10^d` |
| `Utils.DecimalsExamples` | contract/amm/src/utils.rs:29-39 | `add_decimals(50,3) = 50000` and `remove_decimals(50000,3) = 50` |
| `Utils.CalcDy` | contract/amm/src/utils.rs:15-17 | succeeds exactly when `x*y` and `x+dx` fit `u128` and `x+dx != 0`; the panic is overflow or division by zero accordingly; the result is at most `y` |
| `Utils.CalcDyBelowReserve` | contract/amm/src/utils.rs:15-17 | the quote is strictly below `y` if and only if `x*y >= x+dx` |
| `Utils.CalcDyCanDrainReserve` | contract/amm/src/utils.rs:15-17 | `calc_dy(1,1,5)` quotes the whole reserve `1` |
| `Utils.CalcDyZeroSold` | contract/amm/src/utils.rs:15-17 | with `x > 0` and `x*y` in range, selling 0 buys 0 |
| `Utils.CalcDyMonotone` | contract/amm/src/utils.rs:15-17 | for fixed reserves, a larger `dx` never buys less |
| `Utils.CalcDyRoundsUp` | contract/amm/src/utils.rs:12-17 | the quote `dy` satisfies `(dy-1)(x+dx) < y*dx <= dy(x+dx)`, i.e. it is `y*dx/(x+dx)` rounded up |
| `Utils.CalcDyProduct` | contract/amm/src/utils.rs:12-17 | after the trade, `(x+dx)(y-dy)` is at most `x*y` and more than `x*y-(x+dx)` |
| `Utils.CheckCalculator` | contract/amm/src/utils.rs:41-50 | the check_calculator scenario: `4_000_000` scaled reserve, quote `2_000_000`, scaled back to `20_000` |
| `Ledger.Deposit` | contract/amm/src/lib.rs:277 | a credit adds `amount` to one balance and to the supply, leaves every other balance alone, keeps the sum invariant, and panics exactly on `u128` overflow |
| `Ledger.Withdraw` | contract/amm/src/lib.rs:229 | a debit removes `amount` from one balance and from the supply; in a valid ledger it fails exactly when the balance is short |
| `Ledger.Transfer` | contract/amm/src/lib.rs:93 | in a valid ledger a transfer fails only when the sender's balance is short; it moves `amount` from sender to receiver, keeps the supply and every other balance, and keeps the invariant |
| `Ledger.BalanceOf` | contract/amm/src/lib.rs:89-90 | the balance of an account with an entry is that entry; an account without one reads as 0. That is `ft_balance_of` (lib.rs:256, 261); `internal_unwrap_balance_of` (lib.rs:89-90, 141-142, 179-180, 185) would panic there instead |
| `Ledger.New` | contract/amm/src/utils.rs:19-23 | a fresh ledger is valid, has supply 0 and gives every account balance 0 |
| `Ledger.BalanceAtMostSupply` | contract/amm/src/lib.rs:184-187 | in a valid ledger no balance exceeds the total supply |
| `Amm.SwapQuote` | contract/amm/src/lib.rs:95-104 | the scaled quote (both reserves brought to the larger decimal count, the raw sell amount priced, the result scaled back) never exceeds the buy reserve `y` |
| `Amm.SwapQuoteSameDecimals` | contract/amm/src/lib.rs:95-104 | with equal decimals, the swap quote is exactly `calc_dy` |
| `Amm.SwapQuoteCanPayNothing` | contract/amm/src/lib.rs:95-104 | selling 1 of a 3-decimal token into reserves 1_000_000 / 1 (1 decimal) buys 0 |
| `Amm.SwapQuoteExample` | contract/amm/src/lib.rs:95-104 | 1_000_000 of a 3-decimal token sold into reserves 1_000_000 / 40_000 (1 decimal) buys 20_000 |
| `Amm.SwapLedgers` | contract/amm/src/lib.rs:88-107 | the amount bought is the quote on the reserves read before the seller's transfer; it fails exactly when the seller is short or the quote panics; it moves `sellAmount` user→pool and the quote pool→user; supplies are unchanged |
| `Amm.LpShare` | contract/amm/src/lib.rs:151-153 | the share is `(amountA + amountB) * 10^(max - decimalsA)`, token A's gap used for both; it panics exactly when that leaves `u128` |
| `Amm.ReplenishPool` | contract/amm/src/lib.rs:140-156 | accepted only when `poolA*amtB == poolB*amtA` (overflow and mismatch panics otherwise); on success both amounts move payer→pool and the payer's LP balance and the LP supply each grow by exactly the share |
| `Amm.ExclusionPayout` | contract/amm/src/lib.rs:183-187 | succeeds exactly when `supply * reserve` fits `u128` and the caller holds shares, panicking with overflow or division by zero otherwise; the payout `p` is the floor quotient: `p * callerShares <= supply * reserve < (p + 1) * callerShares` |
| `Amm.ExclusionPayoutAtLeastReserve` | contract/amm/src/lib.rs:183-187 | when the caller's shares are at most the supply, the payout is at least the whole reserve, and exactly the reserve when the caller holds all shares |
| `Amm.ExcludeFromPool` | contract/amm/src/lib.rs:178-196 | fails when the caller has no shares; on success the caller's LP balance is 0, the supply drops by the burnt shares, each reserve pays `S*res/L` to the caller (`S` the LP supply, `res` the reserve, `L` the caller's LP balance); when the caller is not the pool account, both pool reserves end at 0 and the caller gains them in full |
| `Amm.Contract.constructor` | contract/amm/src/lib.rs:40-67 | owner is the current account; two empty token ledgers; no metadata yet; empty LP ledger |
| `Amm.Contract.FtBalanceOf` | contract/amm/src/lib.rs:254-263 | the LP balance when asked about the contract's own account, else that token's balance; panics for an unsupported token; never above the ledger's supply |
| `Amm.Contract.Swap` | contract/amm/src/lib.rs:69-115 | panics in order for equal tokens, a missing buy/sell token, missing buy/sell metadata; otherwise the outcome of `SwapLedgers` is written back; LP ledger, metadata and owner are unchanged; every panic leaves the state unchanged; the amount bought may be 0, which the deployed library's positive-amount assertion would revert (not modelled) |
| `Amm.Contract.AddTokensToPool` | contract/amm/src/lib.rs:119-165 | panics in order for the owner check, equal tokens, a missing token, missing metadata; otherwise the outcome of `ReplenishPool` is written back; any panic leaves the state unchanged |
| `Amm.Contract.ExcludeTokensFromPool` | contract/amm/src/lib.rs:170-200 | panics in order for the owner check, equal tokens, a missing token; otherwise the outcome of `ExcludeFromPool` is written back; a caller with no shares always fails, and a successful caller is left with 0 shares |
| `Amm.Contract.WithdrawTokens` | contract/amm/src/lib.rs:202-216 | fails exactly for an unsupported token; otherwise requests a transfer of `amount` to the predecessor; changes no state |
| `Amm.Contract.WithdrawTokensCallback` | contract/amm/src/lib.rs:218-236 | on `Failed` nothing changes; on `Successful` it debits exactly `amount` from the signer's balance and that token's supply, fails only on a missing token or a short balance, and changes nothing else |
| `Amm.Contract.OnGetMetadata` | contract/amm/src/lib.rs:238-252 | a failed promise panics; an unsupported id panics; otherwise it records the metadata for that id; the token map, LP ledger and owner never change |
| `Amm.Contract.FtOnTransfer` | contract/amm/src/lib.rs:269-280 | credits `sender_id` with `amount` in the ledger of the calling token and returns 0; panics for an unsupported token or on overflow |
| `AmmScenarios.SwapBeforeMetadata` | contract/amm/src/lib.rs:79-84 | a swap right after `new`, before the metadata callbacks, fails with missing metadata |
| `AmmScenarios.WithdrawTwoPhase` | contract/amm/src/lib.rs:203-235 | a withdrawal leaves the local balance unchanged while pending and after a `Failed` callback; a `Successful` callback debits it (100 → 60) |
| `AmmScenarios.WithdrawBeyondBalance` | contract/amm/src/lib.rs:203-235 | with 100 credited, a request for 200 is sent; the `Successful` callback panics with an insufficient balance, and the balance stays 100 |
| `AmmScenarios.CalculatorSwap` | contract/amm/src/lib.rs:69-115 | the check_calculator pool swapped through the contract pays 20_000, and the balances move accordingly |
| `AmmScenarios.ProvidedPool` | contract/amm/src/lib.rs:119-165 | a caller other than the contract account adds 100 A (1 decimal) and 50 B (3 decimals) and receives 15_000 shares, past the owner check; this holds with storage registration abstracted away, since the deployed library would refuse the unregistered user |
| `AmmScenarios.LiquidityRoundTrip` | contract/amm/src/lib.rs:170-200 | that sole provider excludes and gets back exactly 100 A and 50 B, with 0 shares left, again with registration abstracted away |

## Left out

- `external.rs` holds only the `#[ext_contract]` interfaces and the gas constant. The promises that `new` and `withdraw_tokens` schedule, and their gas, are not modelled; the callbacks they lead to are separate methods.
- `WithdrawTokens` returns the request it would send instead of scheduling a promise.
- `env::state_exists` (lib.rs:42), `assert_self`, `#[private]`, `#[payable]`, Borsh serialisation, `LookupMap` storage prefixes and `log!` belong to the host runtime and are not modelled.
- `PromiseResult::NotReady` is left out: the runtime never passes it to a callback, and the source calls it `unreachable!()`.
- The callbacks' string values (`"error!"`, `"Ok"`) are discarded by the source and are not modelled.
- `FungibleTokenMetadata` is reduced to `decimals`, the only field the pool reads.
- `init_token` is modelled only as the empty ledger `Ledger.New`, with the owner account entered at balance 0.
- Storage registration is not modelled. The library panics when it reads or credits an account that has no storage entry; here such an account reads as 0 and can be credited. The contract registers only its own account (utils.rs:21), so in the deployed program every credit or debit of another account panics. In the model those calls succeed, and the user-side scenarios in `AmmScenarios` depend on that.
- `internal_transfer`'s own assertions (sender and receiver differ, amount is positive) and its events are not modelled. A zero amount or a self-transfer succeeds here.
- Integer overflow is modelled as a panic, as with overflow checks enabled; a build without them would wrap instead.
- Concurrency and promise ordering are not modelled: each call runs alone, and a callback is just a later call.
