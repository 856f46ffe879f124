/** The pricing arithmetic of contract/amm/src/utils.rs: decimal scaling and
    the constant-product quote, on u128 with Rust's overflow checks. */
module Utils {
  import opened Wrappers
  import opened Near

  /** 10 to the power n, as a mathematical integer. */
  function Pow10(n: nat): (r: nat)
    ensures r >= 1
  {
    if n == 0 then 1 else 10 * Pow10(n - 1)
  }

  lemma {:induction false} Pow10Monotone(m: nat, n: nat)
    requires m <= n
    ensures Pow10(m) <= Pow10(n)
  {
    if m < n {
      Pow10Monotone(m, n - 1);
    }
  }

  lemma Pow10Value38()
    ensures Pow10(38) == 100_000_000_000_000_000_000_000_000_000_000_000_000
  {
    assert Pow10(8) == 100_000_000;
    assert Pow10(16) == 10_000_000_000_000_000;
    assert Pow10(24) == 1_000_000_000_000_000_000_000_000;
    assert Pow10(32) == 100_000_000_000_000_000_000_000_000_000_000;
  }

  /** `10_u128.pow(d)` fits exactly when d is at most 38. */
  lemma Pow10Fits(d: nat)
    ensures Pow10(d) <= U128_MAX <==> d <= 38
  {
    Pow10Value38();
    if d <= 38 {
      Pow10Monotone(d, 38);
    } else {
      Pow10Monotone(39, d);
    }
  }

  /** `10_u128.pow(decimals as u32)`, which panics once the power leaves u128. */
  function Pow10U128(decimals: u8): (r: Result<u128>)
    ensures r.Ok? <==> decimals <= 38
    ensures r.Ok? ==> r.value == Pow10(decimals)
    ensures r.Err? ==> r.panic == ArithmeticOverflow
  {
    Pow10Fits(decimals);
    if Pow10(decimals) <= U128_MAX then Ok(Pow10(decimals)) else Err(ArithmeticOverflow)
  }

  /** add_decimals: scale a value up by `decimals` decimal places. */
  function AddDecimals(value: u128, decimals: u8): (r: Result<u128>)
    ensures r.Ok? <==> decimals <= 38 && value * Pow10(decimals) <= U128_MAX
    ensures r.Ok? ==> r.value == value * Pow10(decimals)
    ensures r.Err? ==> r.panic == ArithmeticOverflow
  {
    var scale :- Pow10U128(decimals);
    CheckedMul(value, scale)
  }

  /** remove_decimals: scale a value down by `decimals` decimal places,
      dropping the remainder. */
  function RemoveDecimals(value: u128, decimals: u8): (r: Result<u128>)
    ensures r.Ok? <==> decimals <= 38
    ensures r.Ok? ==> r.value == value / Pow10(decimals)
    ensures r.Ok? ==> r.value <= value
    ensures r.Err? ==> r.panic == ArithmeticOverflow
  {
    var scale :- Pow10U128(decimals);
    CheckedDiv(value, scale)
  }

  /** Scaling up and then down gives the value back. */
  lemma AddRemoveRoundTrip(value: u128, decimals: u8)
    requires AddDecimals(value, decimals).Ok?
    ensures RemoveDecimals(AddDecimals(value, decimals).value, decimals) == Ok(value)
  {
    MulDivCancel(value, Pow10(decimals));
  }

  /** Scaling down and then up never fails and never gives more than the
      value: the remainder is lost. */
  lemma RemoveAddLosesDust(value: u128, decimals: u8)
    requires RemoveDecimals(value, decimals).Ok?
    ensures AddDecimals(RemoveDecimals(value, decimals).value, decimals).Ok?
    ensures AddDecimals(RemoveDecimals(value, decimals).value, decimals).value <= value
    ensures value - AddDecimals(RemoveDecimals(value, decimals).value, decimals).value < Pow10(decimals)
  {
    DivMulBounds(value, Pow10(decimals));
  }

  /** The unit tests of add_decimals and remove_decimals. */
  lemma DecimalsExamples()
    ensures AddDecimals(50, 3) == Ok(50_000)
    ensures RemoveDecimals(50_000, 3) == Ok(50)
  {
  }

  /** calc_dy: for reserves x (sold into the pool) and y (bought from it)
      and an amount dx sold, the amount bought, `y - x*y/(x+dx)`.
      `x*y` and `x+dx` panic on overflow, the division by zero when
      x + dx == 0; the final subtraction never underflows. */
  function CalcDy(x: u128, y: u128, dx: u128): (r: Result<u128>)
    ensures r.Ok? <==> x * y <= U128_MAX && x + dx <= U128_MAX && x + dx != 0
    ensures r.Err? ==> r.panic == (if x * y <= U128_MAX && x + dx <= U128_MAX then DivisionByZero else ArithmeticOverflow)
    ensures r.Ok? ==> r.value <= y
  {
    var k :- CheckedMul(x, y);
    var s :- CheckedAdd(x, dx);
    var q :- CheckedDiv(k, s);
    QuotientAtMostReserve(x, y, dx);
    CheckedSub(y, q)
  }

  /** The quote is strictly below the reserve exactly when the floor
      quotient x*y/(x+dx) is at least one; otherwise the whole reserve y is
      quoted. */
  lemma CalcDyBelowReserve(x: u128, y: u128, dx: u128)
    requires CalcDy(x, y, dx).Ok?
    ensures CalcDy(x, y, dx).value < y <==> x * y >= x + dx
  {
    QuotientPositive(x * y, x + dx);
  }

  /** Selling one unit into a pool with one unit of each reserve buys the
      whole buy reserve. */
  lemma CalcDyCanDrainReserve()
    ensures CalcDy(1, 1, 5) == Ok(1)
  {
  }

  /** Selling nothing buys nothing. */
  lemma CalcDyZeroSold(x: u128, y: u128)
    requires x > 0 && x * y <= U128_MAX
    ensures CalcDy(x, y, 0) == Ok(0)
  {
    MulDivCancel(y, x);
    assert x * y == y * x;
  }

  /** Selling more never buys less. */
  lemma CalcDyMonotone(x: u128, y: u128, dx1: u128, dx2: u128)
    requires dx1 <= dx2
    requires CalcDy(x, y, dx1).Ok? && CalcDy(x, y, dx2).Ok?
    ensures CalcDy(x, y, dx1).value <= CalcDy(x, y, dx2).value
  {
    DivAntitone(x * y, x + dx1, x + dx2);
  }

  /** The quote is the constant-product output y*dx/(x+dx) rounded UP: the
      rounding favours the trader, not the pool. */
  lemma CalcDyRoundsUp(x: u128, y: u128, dx: u128)
    requires CalcDy(x, y, dx).Ok?
    ensures var dy := CalcDy(x, y, dx).value;
      (dy - 1) * (x + dx) < y * dx <= dy * (x + dx)
  {
    var s := x + dx;
    var q := x * y / s;
    var dy := CalcDy(x, y, dx).value;
    DivMulBounds(x * y, s);
    assert dy == y - q;
    assert dy * s == y * s - q * s;
    assert (dy - 1) * s == y * s - q * s - s;
    assert y * s == x * y + y * dx;
  }

  /** After the trade the product of the reserves does not grow, and it
      shrinks by less than x + dx. */
  lemma CalcDyProduct(x: u128, y: u128, dx: u128)
    requires CalcDy(x, y, dx).Ok?
    ensures var dy := CalcDy(x, y, dx).value;
      x * y - (x + dx) < (x + dx) * (y - dy) <= x * y
  {
    var s := x + dx;
    var q := x * y / s;
    DivMulBounds(x * y, s);
    assert y - CalcDy(x, y, dx).value == q;
    assert s * q == q * s;
  }

  /** The check_calculator unit test: reserves 1_000_000 (three decimals)
      and 40_000 (one decimal), both brought to three decimals, selling
      1_000_000 buys 20_000 once scaled back. */
  lemma CheckCalculator()
    ensures AddDecimals(40_000, 2) == Ok(4_000_000)
    ensures CalcDy(1_000_000, 4_000_000, 1_000_000) == Ok(2_000_000)
    ensures RemoveDecimals(2_000_000, 2) == Ok(20_000)
  {
  }

  /** The floor of x*y/(x+dx) is at most y. */
  lemma QuotientAtMostReserve(x: nat, y: nat, dx: nat)
    requires x + dx > 0
    ensures x * y / (x + dx) <= y
  {
    var s := x + dx;
    assert x * y <= s * y by { MulMonotone(x, s, y); }
    DivBelow(x * y, s, y);
  }

  lemma MulMonotone(a: nat, b: nat, c: nat)
    requires a <= b
    ensures a * c <= b * c
  {
  }

  /** n < (m + 1) * d implies n / d <= m; and conversely n / d <= m when n <= m * d. */
  lemma DivBelow(n: nat, d: nat, m: nat)
    requires d > 0 && n <= d * m
    ensures n / d <= m
  {
    DivMulBounds(n, d);
    if n / d > m {
      MulMonotone(m + 1, n / d, d);
    }
  }

  /** A floor quotient is positive exactly when the dividend reaches the divisor. */
  lemma QuotientPositive(n: nat, d: nat)
    requires d > 0
    ensures n / d >= 1 <==> n >= d
  {
    DivMulBounds(n, d);
    if n / d >= 1 {
      MulMonotone(1, n / d, d);
    }
  }

  /** A larger divisor gives a smaller quotient. */
  lemma DivAntitone(n: nat, d1: nat, d2: nat)
    requires 0 < d1 <= d2
    ensures n / d2 <= n / d1
  {
    DivMulBounds(n, d1);
    DivMulBounds(n, d2);
    MulMonotone(d1, d2, n / d2);
    assert (n / d2) * d1 <= n;
    if n / d2 > n / d1 {
      MulMonotone(n / d1 + 1, n / d2, d1);
    }
  }

  /** A larger dividend gives a larger quotient. */
  lemma DivMonotone(a: nat, b: nat, d: nat)
    requires a <= b && d > 0
    ensures a / d <= b / d
  {
    DivMulBounds(a, d);
    DivMulBounds(b, d);
    if a / d > b / d {
      MulMonotone(b / d + 1, a / d, d);
    }
  }

  lemma MulDivCancel(v: nat, p: nat)
    requires p > 0
    ensures v * p / p == v
  {
    DivMulBounds(v * p, p);
    var q := v * p / p;
    if q < v {
      MulMonotone(q + 1, v, p);
    }
  }

  /** Euclidean division: (n / d) * d <= n < (n / d + 1) * d. */
  lemma DivMulBounds(n: nat, d: nat)
    requires d > 0
    ensures (n / d) * d <= n < (n / d) * d + d
  {
  }
}
