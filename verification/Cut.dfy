/** When the cut of one LSD, which both wrappers make, underflows. */
module Cut {
  import opened FixedPoint
  import opened Pricing

  /** The underlying value held above one per token, in atomics. */
  function Surplus(held: nat, supply: nat, rate: nat): int {
    held * rate - supply * ONE
  }

  /** The surplus is nearly the worth of one LSD, so an LSD is counted as reward, yet below the whole
      number of underlying tokens that the cut of one LSD subtracts. */
  predicate CutUnderflows(held: nat, supply: nat, rate: nat) {
    var c := Surplus(held, supply, rate);
    c * ONE > rate * (ONE - 1) && c < rate / ONE * ONE
  }

  /** An LSD reward is counted exactly when the surplus exceeds the worth of one LSD less one part in
      ONE of it. */
  lemma RewardCounted(held: nat, supply: nat, rate: nat)
    requires 0 < rate && Backed(held, supply, rate)
    ensures Gross(held, supply, rate).lsd > 0 <==> Surplus(held, supply, rate) * ONE > rate * (ONE - 1)
  {
    var q := supply * ONE * ONE / rate;
    FloorGe(supply * ONE * ONE, rate, (held - 1) * ONE + 1);
    assert ((held - 1) * ONE + 1) * rate == held * rate * ONE - rate * (ONE - 1);
    assert Gross(held, supply, rate).lsd > 0 <==> q < (held - 1) * ONE + 1;
  }

  /** At rates below two, or whose fraction in atomics is at least their whole part, the computation
      never aborts, whatever the wrapper holds and has issued. */
  lemma SafeRates(held: nat, supply: nat, rate: nat)
    requires rate < 2 * ONE || rate % ONE >= rate / ONE
    ensures !CutUnderflows(held, supply, rate)
  {}

  /** The surplus and the rate, split into wholes and fractions: between the two bounds of an underflow
      lies no value that the wholes allow. */
  lemma SmallSurplus(c: int, supply: nat, held: nat, k: nat, f: nat, wholes: nat, fractions: nat)
    requires f < k && wholes + k <= ONE && fractions + held <= wholes && (f == 0 ==> fractions == 0)
    requires c == wholes * ONE + fractions - supply * ONE
    ensures !(c * ONE > (k * ONE + f) * (ONE - 1) && c < k * ONE)
  {}

  /** Nor does it for a holding that is small against the rate. */
  lemma SmallHoldings(held: nat, supply: nat, rate: nat)
    requires 0 < rate && (held + 1) * (rate / ONE) <= ONE
    ensures !CutUnderflows(held, supply, rate)
  {
    var k, f := rate / ONE, rate % ONE;
    if f >= k {
      SafeRates(held, supply, rate);
    } else {
      assert (held + 1) * k == held * k + k;
      assert held * rate == held * k * ONE + held * f by { assert rate == k * ONE + f; }
      assert 0 <= held * f <= held * k - held by {
        MulLe(0, f, held);
        MulLe(f, k - 1, held);
      }
      if f == 0 { assert held * f == 0; }
      SmallSurplus(Surplus(held, supply, rate), supply, held, k, f, held * k, held * f);
    }
  }

}
