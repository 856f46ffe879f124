/** Results of contract calls. A NEAR call that panics reverts every change it
    made, so every operation of the model returns either a value or the reason
    it panicked. */
module Wrappers {

  /** Why a call panicked. */
  datatype Panic =
    // Rust integer semantics with overflow checks
    | ArithmeticOverflow
    | DivisionByZero
    // the fungible-token ledger
    | BalanceOverflow
    | TotalSupplyOverflow
    | InsufficientBalance
    // the AMM contract's own panics and assertions
    | NotOwner
    | TokensEqual
    | BuyTokenNotSupported
    | SellTokenNotSupported
    | BuyTokenMetaNotFound
    | SellTokenMetaNotFound
    | TokenANotSupported
    | TokenBNotSupported
    | TokenAMetaNotFound
    | TokenBMetaNotFound
    | IncorrectProportions
    | TokenNotSupported
    | UnwrapOnNone
    // the runtime: a `#[callback]` argument whose promise did not succeed
    | CallbackNotSuccessful

  /** A value, or the panic that aborted the call; usable with `:-`. */
  datatype Result<+T> = Ok(value: T) | Err(panic: Panic) {
    predicate IsFailure() {
      Err?
    }

    function PropagateFailure<U>(): Result<U>
      requires Err?
    {
      Err(panic)
    }

    function Extract(): T
      requires Ok?
    {
      value
    }
  }
}
