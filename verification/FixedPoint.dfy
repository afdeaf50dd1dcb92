/** The 18-digit fixed-point arithmetic the wrapper contracts compute with. A decimal is held as its
    atomics, so the decimal 1 is ONE. A 128-bit result that does not fit aborts the transaction, as
    does a division by zero; both are the error Panic. */
module FixedPoint {

  const ONE: nat := 1_000_000_000_000_000_000
  const MAX128: nat := 0x1_0000_0000_0000_0000_0000_0000_0000_0000 - 1
  const MAX64: nat := 0x1_0000_0000_0000_0000 - 1

  datatype Error =
    | Panic                // arithmetic overflow, underflow or division by zero
    | Unauthorized
    | NoRewards            // the token is worth less than one underlying token
    | CapExceeded          // the ratios recorded so far exceed the accrued yearly cap
    | TooOften
    | InsufficientBalance
    | NoAllowance
    | WrongFunds
    | TransferFailed
    | InitFailed           // the token cannot be created with the balances asked for

  datatype Result<+T> = Ok(value: T) | Err(error: Error) {
    predicate IsFailure() { Err? }
    function PropagateFailure<U>(): Result<U> requires Err? { Err(error) }
    function Extract(): T requires Ok? { value }
  }

  datatype Option<+T> = None | Some(value: T)

  /** A value of a 128-bit type, or an abort when it does not fit. */
  function Fit(x: int): (r: Result<nat>)
    ensures r.Ok? <==> 0 <= x <= MAX128
    ensures r.Ok? ==> r.value == x
  {
    if 0 <= x <= MAX128 then Ok(x) else Err(Panic)
  }

  // ---------- the decimal operations ----------

  function FromRatio(n: nat, d: nat): Result<nat> {
    if d == 0 then Err(Panic) else Fit(n * ONE / d)
  }

  function MulDecimal(a: nat, b: nat): Result<nat> {
    Fit(a * b / ONE)
  }

  function DivDecimal(a: nat, b: nat): Result<nat> {
    if b == 0 then Err(Panic) else Fit(a * ONE / b)
  }

  function DivUint(a: nat, n: nat): Result<nat> {
    if n == 0 then Err(Panic) else Ok(a / n)
  }

  /** A decimal times an integer, truncated to an integer. */
  function MulUint(a: nat, n: nat): Result<nat> {
    Fit(a * n / ONE)
  }

  /** A decimal times the integer one: its integer part, which always fits. */
  function Truncate(a: nat): nat {
    a * 1 / ONE
  }

  function Quotient(n: nat, d: nat): nat
    requires 0 < d
  {
    n / d
  }

  function Min(a: nat, b: nat): nat { if a <= b then a else b }

  function Max(a: nat, b: nat): nat { if a >= b then a else b }

  // ---------- inequalities over products ----------

  lemma MulLe(a: int, b: int, c: nat)
    requires a <= b
    ensures a * c <= b * c
  {}

  lemma CancelLe(a: int, b: int, c: int)
    requires 0 < c && a * c <= b * c
    ensures a <= b
  {}

  lemma CancelLt(a: int, b: int, c: int)
    requires 0 < c && a * c < b * c
    ensures a < b
  {}

  // ---------- floors ----------

  /** The defining bounds of a floored quotient. */
  lemma Floor(n: nat, d: nat)
    requires 0 < d
    ensures n / d * d <= n < n / d * d + d
    ensures (n / d + 1) * d == n / d * d + d
  {}

  lemma FloorRest(n: nat, d: nat)
    requires 0 < d
    ensures n == n / d * d + n % d && 0 <= n % d < d
  {}

  /** A quotient is at least q exactly when q divisors fit. */
  lemma FloorGe(n: nat, d: nat, q: int)
    requires 0 < d
    ensures q <= n / d <==> q * d <= n
  {
    Floor(n, d);
    if q <= n / d {
      MulLe(q, n / d, d);
    } else {
      MulLe(n / d + 1, q, d);
    }
  }

  lemma FloorMono(a: nat, b: nat, d: nat)
    requires 0 < d && a <= b
    ensures a / d <= b / d
  {
    Floor(a, d);
    FloorGe(b, d, a / d);
  }

  lemma MulSwap(a: int, b: int, c: int)
    ensures a * b * c == a * (c * b)
  {}

  /** Flooring twice is flooring once by the product. */
  lemma FloorTwice(n: nat, a: nat, b: nat)
    requires 0 < a && 0 < b
    ensures 0 < a * b
    ensures n / a / b == n / (a * b)
  {
    var q := n / a / b;
    FloorGe(n / a, b, q);
    FloorGe(n, a, q * b);
    FloorGe(n / a, b, q + 1);
    FloorGe(n, a, (q + 1) * b);
    MulSwap(q, b, a);
    MulSwap(q + 1, b, a);
    FloorGe(n, a * b, q);
    FloorGe(n, a * b, q + 1);
  }

  /** A factor common to numerator and denominator cancels. */
  lemma FloorCancel(n: nat, d: nat, c: nat)
    requires 0 < d && 0 < c
    ensures 0 < d * c
    ensures n * c / (d * c) == n / d
    ensures n * c / c == n
  {
    FloorGe(n * c, c, n);
    FloorGe(n * c, c, n + 1);
    if n + 1 <= n * c / c { CancelLe(n + 1, n, c); }
    FloorTwice(n * c, c, d);
    assert d * c == c * d;
  }

  /** The rounding every priced amount goes through: an amount turned into a decimal, divided by a
      decimal price and truncated is the floor of the exact quotient. */
  lemma PricedAmount(a: nat, price: nat)
    requires 0 < price
    ensures a * ONE * ONE / price / ONE == a * ONE / price
  {
    FloorTwice(a * ONE * ONE, price, ONE);
    FloorCancel(a * ONE, price, ONE);
  }
}
