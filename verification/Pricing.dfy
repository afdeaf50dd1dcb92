/** What the wrappers' decimal pipelines compute, as single integer formulas. */
module Pricing {
  import opened FixedPoint

  // ---------- exchanging LSD and wrapper tokens ----------

  /** The LSD paid for `amount` burned tokens at a price in atomics of tokens per LSD. */
  function BurnPay(amount: nat, price: nat): Result<nat> {
    if price == 0 || amount * ONE > MAX128 || amount * ONE * ONE / price > MAX128 then Err(Panic)
    else Ok(amount * ONE / price)
  }

  /** The LSD asked for `amount` minted tokens: what burning them would pay, plus one. */
  function MintCost(amount: nat, price: nat): Result<nat> {
    if price == 0 || amount * ONE > MAX128 || amount * ONE * ONE / price + ONE > MAX128 then Err(Panic)
    else Ok(amount * ONE / price + 1)
  }

  /** The tokens minted for `lsd` at the LSD rate. */
  function RateYield(lsd: nat, rate: nat): Result<nat> {
    if lsd * ONE > MAX128 || lsd * rate > MAX128 then Err(Panic) else Ok(lsd * rate / ONE)
  }

  /** The tokens minted for `lsd` at a share price. */
  function ShareYield(lsd: nat, price: nat): Result<nat> {
    Fit(lsd * price / ONE)
  }

  /** The price of one LSD in wrapper tokens, from what the wrapper holds and has issued. */
  function SharePrice(held: nat, supply: nat): Result<nat> {
    if held == 0 || supply == 0 then Ok(ONE) else Fit(supply * ONE / held)
  }

  /** A burn never pays more than its worth at the price, a mint asks more than its worth, and both
      miss it by at most the worth of one LSD. */
  lemma FairPrice(amount: nat, price: nat)
    ensures BurnPay(amount, price).Ok? ==>
              BurnPay(amount, price).value * price <= amount * ONE < (BurnPay(amount, price).value + 1) * price
    ensures MintCost(amount, price).Ok? ==>
              (MintCost(amount, price).value - 1) * price <= amount * ONE < MintCost(amount, price).value * price
  {}

  /** A burn of `amount` can be paid out of a holding: the arithmetic fits and the holding suffices. */
  predicate Payable(amount: nat, price: nat, held: nat) {
    && 0 < price && amount * ONE <= MAX128
    && amount * ONE * ONE < (MAX128 + 1) * price
    && amount * ONE < (held + 1) * price
  }

  lemma PayableExactly(amount: nat, price: nat, held: nat)
    ensures BurnPay(amount, price).Ok? && BurnPay(amount, price).value <= held <==> Payable(amount, price, held)
  {
    if 0 < price {
      FloorGe(amount * ONE * ONE, price, MAX128 + 1);
      FloorGe(amount * ONE, price, held + 1);
    }
  }

  /** A mint of `amount` can be paid with `most` LSD. */
  predicate Affordable(amount: nat, price: nat, most: nat) {
    && 0 < price && amount * ONE <= MAX128
    && amount * ONE * ONE < (MAX128 + 1 - ONE) * price
    && amount * ONE < most * price
  }

  lemma AffordableExactly(amount: nat, price: nat, most: nat)
    ensures MintCost(amount, price).Ok? && MintCost(amount, price).value <= most <==> Affordable(amount, price, most)
  {
    if 0 < price {
      FloorGe(amount * ONE * ONE, price, MAX128 + 1 - ONE);
      FloorGe(amount * ONE, price, most);
    }
  }

  /** What LSD yields is within a bound exactly when its worth is below the next token. */
  lemma YieldFits(lsd: nat, price: nat, room: nat)
    ensures lsd * price / ONE <= room <==> lsd * price < (room + 1) * ONE
  {
    FloorGe(lsd * price, ONE, room + 1);
  }

  /** The price of one LSD is the floored quotient of supply and holding, and one when there is none of
      either. */
  lemma SharePriceIsFloored(held: nat, supply: nat)
    ensures held == 0 || supply == 0 ==> SharePrice(held, supply) == Ok(ONE)
    ensures 0 < held && 0 < supply ==>
              && (SharePrice(held, supply).Ok? <==> supply * ONE < (MAX128 + 1) * held)
              && (SharePrice(held, supply).Ok? ==>
                    var price := SharePrice(held, supply).value;
                    price * held <= supply * ONE < (price + 1) * held)
  {
    if 0 < held && 0 < supply {
      Floor(supply * ONE, held);
      FloorGe(supply * ONE, held, MAX128 + 1);
    }
  }

  /** Minting with LSD never yields more than the LSD is worth. */
  lemma FairYield(lsd: nat, price: nat)
    ensures lsd * price / ONE * ONE <= lsd * price < lsd * price / ONE * ONE + ONE
  {}

  /** The cost of a mint as the decimal pipeline rounds it. */
  lemma MintRounding(amount: nat, price: nat)
    requires 0 < price
    ensures Truncate(amount * ONE * ONE / price + ONE) == amount * ONE / price + 1
  {
    PricedAmount(amount, price);
  }

  // ---------- rewards ----------

  /** The LSD held is worth at least one underlying token per wrapper token. */
  predicate Backed(held: nat, supply: nat, rate: nat) {
    held * rate >= supply * ONE
  }

  /** The underlying value of one wrapper token. */
  function CurrentRate(held: nat, supply: nat, rate: nat): Result<nat> {
    if held * ONE > MAX128 || held * rate > MAX128 then Err(Panic)
    else Ok(if supply == 0 then ONE else Quotient(held * rate, supply))
  }

  /** The rate is the floored worth of one token, slashed or not, and one when there are none. */
  lemma CurrentRateIsWorth(held: nat, supply: nat, rate: nat)
    ensures CurrentRate(held, supply, rate).Ok? <==> held * ONE <= MAX128 && held * rate <= MAX128
    ensures CurrentRate(held, supply, rate).Ok? ==>
              var current := CurrentRate(held, supply, rate).value;
              if supply == 0 then current == ONE else current * supply <= held * rate < (current + 1) * supply
  {
    if supply != 0 { Floor(held * rate, supply); }
  }

  /** The LSD set aside to back the supply: its exact quotient floored to a decimal, then rounded up. */
  function Needed(supply: nat, rate: nat): nat
    requires 0 < rate
  {
    (supply * ONE * ONE / rate + ONE - 1) / ONE
  }

  datatype Rewards = Rewards(luna: nat, lsd: nat)

  /** A positive LSD reward is cut by one LSD, and the underlying reward by the worth of one LSD. */
  function Trim(r: Rewards, rate: nat): Result<Rewards> {
    if r.lsd == 0 then Ok(r)
    else if r.luna < rate / ONE then Err(Panic)
    else Ok(Rewards(r.luna - rate / ONE, r.lsd - 1))
  }

  /** A backed token's rewards are not negative: its worth covers the supply, and what is set aside for
      the supply is within the holding. */
  lemma GrossFits(held: nat, supply: nat, rate: nat)
    requires 0 < rate && Backed(held, supply, rate)
    ensures supply <= held * rate / ONE
    ensures supply * ONE * ONE / rate <= held * ONE
    ensures Needed(supply, rate) <= held
  {}

  /** The rewards before the cut, for a backed token. */
  function Gross(held: nat, supply: nat, rate: nat): Rewards
    requires 0 < rate && Backed(held, supply, rate)
  {
    GrossFits(held, supply, rate);
    Rewards(held * rate / ONE - supply, held - Needed(supply, rate))
  }

  /** Rounding down what is left is rounding up what is set aside. */
  lemma LeftOver(held: nat, aside: nat)
    requires aside <= held * ONE
    ensures (held * ONE - aside) / ONE == held - (aside + ONE - 1) / ONE
  {}

  /** The amounts that the reward computation goes through: none of them can fail for a backed token
      whose holding was priced, and the LSD left over truncates to what exceeds the need. */
  lemma GrossPipeline(held: nat, supply: nat, rate: nat)
    requires 0 < rate && Backed(held, supply, rate) && held * rate <= MAX128 && held * ONE <= MAX128
    ensures supply * ONE <= MAX128
    ensures DivDecimal(supply * ONE, rate).Ok?
    ensures DivDecimal(supply * ONE, rate).value <= held * ONE
    ensures (held * ONE - DivDecimal(supply * ONE, rate).value) / ONE == Gross(held, supply, rate).lsd
  {
    GrossFits(held, supply, rate);
    LeftOver(held, supply * ONE * ONE / rate);
  }

  /** The computed rate is below one exactly when the token is not backed: no rounding hides or invents
      a slashing. */
  lemma GuardIsExact(held: nat, supply: nat, rate: nat)
    requires CurrentRate(held, supply, rate).Ok?
    ensures CurrentRate(held, supply, rate).value < ONE <==> !Backed(held, supply, rate)
  {
    if supply != 0 { FloorGe(held * rate, supply, ONE); }
  }

  /** What is set aside is short of the supply's exact worth by less than one LSD, and exceeds it by
      less than one LSD. */
  lemma NeededTight(supply: nat, rate: nat)
    requires 0 < rate
    ensures (Needed(supply, rate) - 1) * rate < supply * ONE
    ensures supply * ONE <= Needed(supply, rate) * rate + rate / ONE
  {
    var q := supply * ONE * ONE / rate;
    var n := Needed(supply, rate);
    Floor(supply * ONE * ONE, rate);
    assert q <= n * ONE < q + ONE;
    MulLe(q + 1, n * ONE + 1, rate);
    assert (n * ONE + 1) * rate == n * rate * ONE + rate;
    assert supply * ONE * ONE < n * rate * ONE + rate;
    FloorGe(rate, ONE, supply * ONE - n * rate);
    if q > 0 {
      MulLe((n - 1) * ONE + 1, q, rate);
      assert ((n - 1) * ONE + 1) * rate == (n - 1) * rate * ONE + rate;
      CancelLt((n - 1) * rate, supply * ONE, ONE);
    } else {
      assert n == 0;
    }
  }

  /** It is the least number of LSD that leaves the supply short of less than one part in ONE of an LSD. */
  lemma NeededIsLeast(supply: nat, rate: nat, q: nat)
    requires 0 < rate
    ensures Needed(supply, rate) <= q <==> (supply * ONE - q * rate) * ONE < rate
  {
    FloorGe(supply * ONE * ONE, rate, q * ONE + 1);
    assert (q * ONE + 1) * rate == q * rate * ONE + rate;
  }

  /** That many LSD can go and leave the supply short of less than one part in ONE of an LSD. */
  predicate Spared(held: nat, supply: nat, rate: nat, lsd: nat) {
    lsd <= held && (supply * ONE - (held - lsd) * rate) * ONE < rate
  }

  /** The rewards before the cut are the most LSD that can be spared, and the most underlying tokens by
      which the worth of the holding exceeds the supply. */
  lemma GrossIsMost(held: nat, supply: nat, rate: nat, n: nat)
    requires 0 < rate && Backed(held, supply, rate)
    ensures n <= Gross(held, supply, rate).lsd <==> Spared(held, supply, rate, n)
    ensures n <= Gross(held, supply, rate).luna <==> (n + supply) * ONE <= held * rate
  {
    GrossFits(held, supply, rate);
    if n <= held { NeededIsLeast(supply, rate, held - n); }
    FloorGe(held * rate, ONE, n + supply);
  }

  /** The rewards before any limit and cut: there are none (NoRewards) for a token that is not backed. */
  function GrossAccrued(held: nat, supply: nat, rate: nat): Result<Rewards> {
    var current :- CurrentRate(held, supply, rate);
    if !Backed(held, supply, rate) then Err(NoRewards)
    else if rate == 0 then Err(Panic)
    else Ok(Gross(held, supply, rate))
  }

  /** By how much a reward lowers the worth of the backing, as a ratio of it. */
  function RateDecrease(luna: nat, backing: nat): Result<nat> {
    if backing == 0 then Err(Panic) else Ok(luna * ONE * ONE / backing)
  }

  /** Rewards within the backing lower its worth by at most all of it, which always fits. */
  lemma DecreaseFits(luna: nat, backing: nat)
    requires luna <= backing / ONE && backing <= MAX128
    ensures luna * ONE <= MAX128
    ensures DivDecimal(luna * ONE, backing) == RateDecrease(luna, backing)
  {}
}
