/** The parts of the NEAR runtime and of Rust the contract relies on: unsigned
    integer types with overflow checks, account ids, the calling environment
    and promise results. */
module Near {
  import opened Wrappers

  const U128_MAX: int := 0xffff_ffff_ffff_ffff_ffff_ffff_ffff_ffff

  type u8 = x: int | 0 <= x < 0x100
  type u128 = x: int | 0 <= x <= U128_MAX

  /** A NEAR account id, e.g. a token contract or a user. */
  type AccountId = string

  /** What `env::current_account_id()`, `env::predecessor_account_id()` and
      `env::signer_account_id()` return during one call. */
  datatype Env = Env(currentAccount: AccountId, predecessor: AccountId, signer: AccountId)

  /** The outcome of the promise a callback was chained to. */
  datatype PromiseResult<+T> = Failed | Successful(value: T)

  // u128 arithmetic as Rust evaluates it with overflow checks on: an
  // out-of-range result or a zero divisor panics.

  function CheckedAdd(a: u128, b: u128): (r: Result<u128>)
    ensures r.Ok? <==> a + b <= U128_MAX
    ensures r.Ok? ==> r.value == a + b
    ensures r.Err? ==> r.panic == ArithmeticOverflow
  {
    if a + b <= U128_MAX then Ok(a + b) else Err(ArithmeticOverflow)
  }

  function CheckedMul(a: u128, b: u128): (r: Result<u128>)
    ensures r.Ok? <==> a * b <= U128_MAX
    ensures r.Ok? ==> r.value == a * b
    ensures r.Err? ==> r.panic == ArithmeticOverflow
  {
    if a * b <= U128_MAX then Ok(a * b) else Err(ArithmeticOverflow)
  }

  function CheckedDiv(a: u128, b: u128): (r: Result<u128>)
    ensures r.Ok? <==> b != 0
    ensures r.Ok? ==> r.value == a / b
    ensures r.Err? ==> r.panic == DivisionByZero
  {
    if b == 0 then Err(DivisionByZero) else Ok(a / b)
  }

  /** Unsigned division rounds down: the quotient q is the largest q with
      q * b <= a. */
  lemma CheckedDivRoundsDown(a: u128, b: u128)
    requires b != 0
    ensures CheckedDiv(a, b).value * b <= a < (CheckedDiv(a, b).value + 1) * b
  {
  }

  function CheckedSub(a: u128, b: u128): (r: Result<u128>)
    ensures r.Ok? <==> b <= a
    ensures r.Ok? ==> r.value + b == a
    ensures r.Err? ==> r.panic == ArithmeticOverflow
  {
    if b <= a then Ok(a - b) else Err(ArithmeticOverflow)
  }

  function Max(a: u8, b: u8): (r: u8)
    ensures r >= a && r >= b && (r == a || r == b)
  {
    if a >= b then a else b
  }
}
