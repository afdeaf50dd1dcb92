/** What one rate-limited decompound takes, how it compares with its forecast, and when it aborts. */
module LimitedDecompound {
  import opened FixedPoint
  import opened Cw20
  import opened Lsd
  import opened Pricing
  import PlainSpec
  import opened LimitedSpec
  import opened Cut

  // ---------- the cap and the cut ----------

  /** The separately floored caps agree well enough: rewards that could stand the cut of one LSD still
      can after the cap, whenever any LSD is left to take. */
  lemma CapPreservesCut(gross: Rewards, m: nat, held: nat, rate: nat)
    requires Limit(gross, m, held, rate).Ok?
    requires Limit(gross, m, held, rate).value.lsd > 0
    ensures Limit(gross, m, held, rate).value.luna >= rate / ONE <==> gross.luna >= rate / ONE
  {
    FloorGe(m * held, ONE, 1);
    MulLe(ONE, m * held, rate);
    assert m * held * rate == m * (held * rate);
    Floor(rate, ONE);
    FloorGe(m * (held * rate), ONE * ONE, rate / ONE);
  }

  /** The exact inputs on which a backed token's rewards are computed without aborting: the limit must
      be computable, and it can only help against the underflow of the cut. */
  lemma LimitedExactly(c: Storage, env: Env)
    requires GrossAccrued(env.held, c.token.supply, env.rate).Ok? && 0 < env.held
    ensures var limited := Limited(c, GrossAccrued(env.held, c.token.supply, env.rate).value, env);
            Accrued(c, env).Ok? <==>
              limited.Ok? && !(limited.value.lsd > 0 && CutUnderflows(env.held, c.token.supply, env.rate))
  {
    var supply := c.token.supply;
    var gross := Gross(env.held, supply, env.rate);
    var limited := Limited(c, gross, env);
    RewardCounted(env.held, supply, env.rate);
    FloorGe(env.held * env.rate, ONE, supply + env.rate / ONE);
    if limited.Ok? && limited.value.lsd > 0 && c.maxRatio.Some? {
      CapPreservesCut(gross, MaxRate(c.maxRatio.value, c.ledger, env.now).value, env.held, env.rate);
    }
  }

  lemma DecreaseArithmetic(luna: nat, m: nat, backing: nat)
    requires 0 < backing && luna <= m * backing / (ONE * ONE)
    ensures luna * ONE * ONE / backing <= m
  {}

  /** The recorded decrease never exceeds what the limit still allows. */
  lemma DecreaseWithinCap(c: Storage, env: Env)
    requires Accrued(c, env).Ok? && c.maxRatio.Some?
    ensures MaxRate(c.maxRatio.value, c.ledger, env.now).Ok?
    ensures Accrued(c, env).value.rateDecrease <= MaxRate(c.maxRatio.value, c.ledger, env.now).value
  {
    var m := MaxRate(c.maxRatio.value, c.ledger, env.now).value;
    DecreaseArithmetic(Accrued(c, env).value.luna, m, env.held * env.rate);
  }

  // ---------- what is taken and recorded ----------

  /** The allowance left by the limit, if there is one, is computable. */
  predicate AllowanceKnown(c: Storage, env: Env) {
    c.maxRatio.Some? ==> MaxRate(c.maxRatio.value, c.ledger, env.now).Ok?
  }

  /** A number of LSD can be spared and is within the allowed share of the holding. */
  predicate MayTake(c: Storage, env: Env, lsd: nat)
    requires AllowanceKnown(c, env)
  {
    && Spared(env.held, c.token.supply, env.rate, lsd)
    && (c.maxRatio.Some? ==> lsd * ONE <= MaxRate(c.maxRatio.value, c.ledger, env.now).value * env.held)
  }

  /** A number of underlying tokens is within the worth that exceeds the supply and within the allowed share
      of the backing. */
  predicate MayBook(c: Storage, env: Env, luna: nat)
    requires AllowanceKnown(c, env)
  {
    && (luna + c.token.supply) * ONE <= env.held * env.rate
    && (c.maxRatio.Some? ==>
          luna * (ONE * ONE) <= MaxRate(c.maxRatio.value, c.ledger, env.now).value * (env.held * env.rate))
  }

  /** The rewards between the limit and the cut are the most that may be taken and booked. */
  lemma LimitedIsMost(c: Storage, env: Env, n: nat)
    requires GrossAccrued(env.held, c.token.supply, env.rate).Ok?
    requires Limited(c, GrossAccrued(env.held, c.token.supply, env.rate).value, env).Ok?
    ensures AllowanceKnown(c, env)
    ensures var limited := Limited(c, GrossAccrued(env.held, c.token.supply, env.rate).value, env).value;
            (n <= limited.lsd <==> MayTake(c, env, n)) && (n <= limited.luna <==> MayBook(c, env, n))
  {
    GrossIsMost(env.held, c.token.supply, env.rate, n);
    if c.maxRatio.Some? {
      var m := MaxRate(c.maxRatio.value, c.ledger, env.now).value;
      FloorGe(m * env.held, ONE, n);
      FloorGe(m * (env.held * env.rate), ONE * ONE, n);
    }
  }

  /** A decompound takes the most LSD and books the most underlying tokens that it may, less one LSD and its
      whole worth when it may take any. */
  lemma TakesTheMost(c: Storage, env: Env)
    requires Accrued(c, env).Ok?
    ensures AllowanceKnown(c, env)
    ensures var t, cut := Accrued(c, env).value, MayTake(c, env, 1);
            var lsd, luna := t.lsd + (if cut then 1 else 0), t.luna + (if cut then env.rate / ONE else 0);
            && MayTake(c, env, lsd) && !MayTake(c, env, lsd + 1)
            && MayBook(c, env, luna) && !MayBook(c, env, luna + 1)
  {
    var limited := Limited(c, Gross(env.held, c.token.supply, env.rate), env).value;
    LimitedIsMost(c, env, 1);
    LimitedIsMost(c, env, limited.lsd);
    LimitedIsMost(c, env, limited.lsd + 1);
    LimitedIsMost(c, env, limited.luna);
    LimitedIsMost(c, env, limited.luna + 1);
  }

  /** The recorded decrease is the booked share of the backing, floored. */
  lemma DecreaseIsBooked(c: Storage, env: Env)
    requires Accrued(c, env).Ok?
    ensures var t, backing := Accrued(c, env).value, env.held * env.rate;
            t.rateDecrease * backing <= t.luna * ONE * ONE < (t.rateDecrease + 1) * backing
  {
    Floor(Accrued(c, env).value.luna * ONE * ONE, env.held * env.rate);
  }

  /** Without a limit the rewards are those of the plain wrapper, provided there is any backing to relate
      them to. */
  lemma UnlimitedIsPlain(c: Storage, env: Env)
    requires c.maxRatio.None?
    ensures var plain := PlainSpec.Accrued(env.held, c.token.supply, env.rate);
            && (Accrued(c, env).Ok? <==> plain.Ok? && 0 < env.held)
            && (Accrued(c, env).Ok? ==> Rewards(Accrued(c, env).value.luna, Accrued(c, env).value.lsd) == plain.value)
            && (plain.Err? ==> Accrued(c, env) == Err(plain.error))
  {
    if 0 < env.held && 0 < env.rate { MulLe(1, env.held, env.rate); }
  }

  // ---------- what the holding keeps ----------

  /** The rewards between the limit and the cut, by their relation to the uncapped ones. */
  ghost predicate CutFrom(t: Taken, limited: Rewards, rate: nat) {
    if limited.lsd == 0 then t.lsd == 0 && t.luna == limited.luna
    else t.lsd == limited.lsd - 1 && t.luna == limited.luna - rate / ONE
  }

  lemma SparingLeavesBacked(left: nat, supply: nat, rate: nat)
    requires 0 < rate && left >= Needed(supply, rate) + 1
    ensures Backed(left, supply, rate)
  {
    var n := Needed(supply, rate);
    NeededTight(supply, rate);
    Floor(rate, ONE);
    MulLe(n + 1, left, rate);
    assert (n + 1) * rate == n * rate + rate;
  }

  /** Whatever the cap, the clock and the rate, what a decompound leaves still backs the supply. */
  lemma LimitedLeavesBacked(c: Storage, env: Env)
    requires Accrued(c, env).Ok?
    ensures var left := env.held - Accrued(c, env).value.lsd;
            0 <= left && Backed(left, c.token.supply, env.rate)
  {
    var limited := Limited(c, Gross(env.held, c.token.supply, env.rate), env).value;
    GrossFits(env.held, c.token.supply, env.rate);
    if limited.lsd > 0 { SparingLeavesBacked(env.held - limited.lsd + 1, c.token.supply, env.rate); }
  }

  /** The worth of the LSD reward exceeds the underlying reward by less than one underlying token and
      the whole part of the rate, before the cap as after it. */
  lemma RewardsMatch(held: nat, supply: nat, rate: nat, luna: nat, lsd: nat)
    requires 0 < rate && Backed(held, supply, rate)
    requires lsd <= Gross(held, supply, rate).lsd
    requires luna == Gross(held, supply, rate).luna
    ensures lsd * rate < (luna + 1) * ONE + rate / ONE
  {
    var n := Needed(supply, rate);
    GrossFits(held, supply, rate);
    NeededTight(supply, rate);
    Floor(held * rate, ONE);
    MulLe(lsd, held - n, rate);
    assert (held - n) * rate == held * rate - n * rate;
  }

  lemma CappedRewardsMatch(held: nat, rate: nat, m: nat, luna: nat, lsd: nat)
    requires luna == m * (held * rate) / (ONE * ONE)
    requires lsd <= m * held / ONE
    ensures lsd * rate < (luna + 1) * ONE
  {
    FloorGe(m * held, ONE, lsd);
    MulLe(lsd * ONE, m * held, rate);
    Floor(m * (held * rate), ONE * ONE);
    assert lsd * ONE * rate == lsd * rate * ONE;
    assert m * held * rate == m * (held * rate);
    CancelLt(lsd * rate, (luna + 1) * ONE, ONE);
  }

  lemma CutMatches(limited: Rewards, t: Taken, rate: nat)
    requires CutFrom(t, limited, rate)
    requires limited.lsd * rate < (limited.luna + 1) * ONE + rate / ONE
    ensures t.lsd * rate < (t.luna + 1) * ONE + rate / ONE
    ensures rate <= ONE * ONE ==> t.lsd * rate < (t.luna + 2) * ONE
  {}

  /** The LSD really sent is worth less than the underlying reward on record, plus one underlying token
      and the whole part of the rate. */
  lemma SentMatchesRecord(c: Storage, env: Env)
    requires Accrued(c, env).Ok?
    ensures var t := Accrued(c, env).value;
            t.lsd * env.rate < (t.luna + 1) * ONE + env.rate / ONE
    ensures env.rate <= ONE * ONE ==>
              Accrued(c, env).value.lsd * env.rate < (Accrued(c, env).value.luna + 2) * ONE
  {
    var t := Accrued(c, env).value;
    var gross := Gross(env.held, c.token.supply, env.rate);
    var limited := Limited(c, gross, env).value;
    if limited.luna == gross.luna {
      RewardsMatch(env.held, c.token.supply, env.rate, limited.luna, limited.lsd);
    } else {
      var m := MaxRate(c.maxRatio.value, c.ledger, env.now).value;
      CappedRewardsMatch(env.held, env.rate, m, limited.luna, limited.lsd);
    }
    CutMatches(limited, t, env.rate);
  }

  lemma BookedArithmetic(luna: nat, rate: nat, held: nat, supply: nat, n: nat)
    requires 0 < rate && (luna + supply) * ONE <= held * rate && !Spared(held, supply, rate, n)
    ensures luna * ONE < n * rate
  {
    if n <= held {
      assert (held - n) * rate == held * rate - n * rate;
    } else {
      MulLe(held + 1, n, rate);
    }
  }

  lemma BookedShareArithmetic(luna: nat, rate: nat, held: nat, m: nat, n: nat)
    requires 0 < rate && luna * (ONE * ONE) <= m * (held * rate) && n * ONE > m * held
    ensures luna * ONE < n * rate
  {
    MulLe(m * held + 1, n * ONE, rate);
    assert (m * held + 1) * rate == m * (held * rate) + rate;
    assert n * ONE * rate == n * rate * ONE;
    CancelLt(luna * ONE, n * rate, ONE);
  }

  lemma CutBookedArithmetic(luna: nat, lsd: nat, rate: nat, cut: bool)
    requires 0 < rate
    requires (luna + if cut then rate / ONE else 0) * ONE < (lsd + 1 + if cut then 1 else 0) * rate
    ensures luna * ONE < (lsd + 1) * rate + ONE && luna * ONE <= (lsd + 2) * rate
  {
    assert (lsd + 2) * rate == (lsd + 1) * rate + rate;
    Floor(rate, ONE);
  }

  /** Nor does the underlying reward on record exceed the worth of the LSD sent by more: it is below that of
      one LSD more, plus one underlying token. */
  lemma RecordMatchesSent(c: Storage, env: Env)
    requires Accrued(c, env).Ok?
    ensures var t := Accrued(c, env).value;
            t.luna * ONE < (t.lsd + 1) * env.rate + ONE && t.luna * ONE <= (t.lsd + 2) * env.rate
  {
    TakesTheMost(c, env);
    var t, cut := Accrued(c, env).value, MayTake(c, env, 1);
    var n, luna := t.lsd + 1 + (if cut then 1 else 0), t.luna + (if cut then env.rate / ONE else 0);
    if !Spared(env.held, c.token.supply, env.rate, n) {
      BookedArithmetic(luna, env.rate, env.held, c.token.supply, n);
    } else {
      BookedShareArithmetic(luna, env.rate, env.held, MaxRate(c.maxRatio.value, c.ledger, env.now).value, n);
    }
    CutBookedArithmetic(t.luna, t.lsd, env.rate, cut);
  }

  /** The share of the holding that a decompound sends away, in atomics. */
  function SentShare(lsd: nat, held: nat): nat
    requires 0 < held
  {
    lsd * ONE / held
  }

  /** The most by which one decompound's share can exceed its recorded decrease. */
  function Slack(held: nat, rate: nat): nat
    requires 0 < held * rate
  {
    1 + (ONE + rate / ONE) * ONE / (held * rate)
  }

  lemma SlackIsSmall(held: nat, rate: nat)
    requires 0 < held * rate && rate <= ONE * ONE
    ensures Slack(held, rate) <= 1 + 2 * ONE * ONE / (held * rate)
    ensures held * rate >= 2 * ONE * ONE ==> Slack(held, rate) <= 2
  {
    FloorGe(2 * ONE * ONE, held * rate, 2);
    FloorMono(rate, ONE * ONE, ONE);
    FloorMono((ONE + rate / ONE) * ONE, 2 * ONE * ONE, held * rate);
  }

  lemma ShareArithmetic(lsd: nat, luna: nat, held: nat, rate: nat)
    requires 0 < held * rate && 0 < held
    requires lsd * rate < (luna + 1) * ONE + rate / ONE
    ensures lsd * ONE / held <= luna * ONE * ONE / (held * rate) + Slack(held, rate)
  {
    var backing, share := held * rate, lsd * ONE / held;
    var extra := (ONE + rate / ONE) * ONE;
    Floor(lsd * ONE, held);
    MulLe(share * held, lsd * ONE, rate);
    assert share * held * rate == share * backing;
    assert lsd * ONE * rate == lsd * rate * ONE;
    Floor(luna * ONE * ONE, backing);
    Floor(extra, backing);
    var bound := luna * ONE * ONE / backing + extra / backing + 2;
    assert bound * backing == luna * ONE * ONE / backing * backing + extra / backing * backing + 2 * backing;
    CancelLt(share, bound, backing);
  }

  /** The share really sent exceeds the recorded decrease by no more than the slack. */
  lemma ShareWithinRecord(c: Storage, env: Env)
    requires Accrued(c, env).Ok?
    ensures 0 < env.held * env.rate && 0 < env.held
    ensures var t := Accrued(c, env).value;
            SentShare(t.lsd, env.held) <= t.rateDecrease + Slack(env.held, env.rate)
  {
    var t := Accrued(c, env).value;
    var backing := env.held * env.rate;
    SentMatchesRecord(c, env);
    assert env.held != 0 && env.rate != 0;
    ShareArithmetic(t.lsd, t.luna, env.held, env.rate);
  }

  // ---------- the forecast ----------

  lemma LeavesNeeded(held: nat, supply: nat, rate: nat, left: nat)
    requires 0 < rate && left <= Needed(supply, rate) + 1
    ensures left * rate <= supply * ONE + 2 * rate
  {
    var n := Needed(supply, rate);
    NeededTight(supply, rate);
    MulLe(left, n + 1, rate);
    assert (n + 1) * rate == (n - 1) * rate + 2 * rate;
  }

  lemma LeavesShare(held: nat, rate: nat, m: nat, left: nat)
    requires left <= held && (held - left) * ONE <= m * held
    ensures left * rate * ONE >= held * rate * (ONE - m)
    ensures (held - left + 2) * ONE >= m * held ==> left * rate * ONE <= held * rate * (ONE - m) + 2 * rate * ONE
  {}

  /** After a decompound under a remaining allowance m, the backing is, up to two LSD, the larger of the
      supply and the old backing less its share m; it is never below either. */
  lemma LimitedLeaves(c: Storage, env: Env)
    requires Accrued(c, env).Ok? && c.maxRatio.Some?
    ensures MaxRate(c.maxRatio.value, c.ledger, env.now).Ok?
    ensures var m := MaxRate(c.maxRatio.value, c.ledger, env.now).value;
            var left := env.held - Accrued(c, env).value.lsd;
            var backing := env.held * env.rate;
            && left * env.rate >= c.token.supply * ONE
            && left * env.rate * ONE >= backing * (ONE - m)
            && (left * env.rate <= c.token.supply * ONE + 2 * env.rate
                || left * env.rate * ONE <= backing * (ONE - m) + 2 * env.rate * ONE)
  {
    var m := MaxRate(c.maxRatio.value, c.ledger, env.now).value;
    var gross := Gross(env.held, c.token.supply, env.rate);
    var limited := Limited(c, gross, env).value;
    var left := env.held - Accrued(c, env).value.lsd;
    LimitedLeavesBacked(c, env);
    Floor(m * env.held, ONE);
    if limited.lsd == gross.lsd {
      LeavesNeeded(env.held, c.token.supply, env.rate, left);
    }
    LeavesShare(env.held, env.rate, m, left);
  }

  /** The clock has not run backwards and the 64-bit seconds do not wrap. */
  predicate ClockSane(l: Ledger, now: nat) {
    l.lastDecompound <= now && l.totalSeconds + Seconds(now) <= MAX64
  }

  /** With a limit set and the token backed, the forecast is the current rate less the remaining
      allowance, but at least one and never above the current rate. */
  lemma ForecastIsClamped(c: Storage, env: Env)
    requires c.maxRatio.Some? && ClockSane(c.ledger, env.now) && Expected(c, env).Ok?
    requires Backed(env.held, c.token.supply, env.rate)
    requires MaxRate(c.maxRatio.value, c.ledger, env.now).Ok?
    ensures var current := CurrentRate(env.held, c.token.supply, env.rate).value;
            var m := MaxRate(c.maxRatio.value, c.ledger, env.now).value;
            var expected := Expected(c, env).value;
            && ONE <= expected <= current
            && expected == (if current < m + ONE then ONE else current - m)
  {
    GuardIsExact(env.held, c.token.supply, env.rate);
    FloorMono(c.ledger.lastDecompound, env.now, NANOS_PER_SECOND);
  }

  /** Without a limit, and for a slashed token, the forecast is the floored worth of one token, and is known
      whenever the holding can be priced. */
  lemma ForecastIsWorth(c: Storage, env: Env)
    requires c.maxRatio.None? || !Backed(env.held, c.token.supply, env.rate)
    ensures Expected(c, env).Ok? <==> env.held * ONE <= MAX128 && env.held * env.rate <= MAX128
    ensures Expected(c, env).Ok? ==>
              var expected, supply := Expected(c, env).value, c.token.supply;
              if supply == 0 then expected == ONE
              else expected * supply <= env.held * env.rate < (expected + 1) * supply
  {
    CurrentRateIsWorth(env.held, c.token.supply, env.rate);
  }

  /** The LSD a decompound sends under a remaining allowance m, as a formula of what a caller knows. */
  function Sent(held: nat, supply: nat, rate: nat, m: nat): nat
    requires 0 < rate && Backed(held, supply, rate)
  {
    GrossFits(held, supply, rate);
    var lsd := Min(held - Needed(supply, rate), m * held / ONE);
    if lsd == 0 then 0 else lsd - 1
  }

  lemma ForecastArithmetic(left: nat, supply: nat, rate: nat, backing: nat, m: nat, expected: nat)
    requires 0 < supply && supply * ONE <= backing
    requires expected >= ONE && expected >= backing / supply - m
    requires left * rate <= supply * ONE + 2 * rate || left * rate * ONE <= backing * (ONE - m) + 2 * rate * ONE
    ensures left * rate <= supply * (expected + 1) + 2 * rate
  {
    assert supply * (expected + 1) == expected * supply + supply;
    if left * rate <= supply * ONE + 2 * rate {
      MulLe(ONE, expected, supply);
    } else {
      var current := backing / supply;
      Floor(backing, supply);
      MulLe(current - m, expected, supply);
      assert (current - m) * supply == current * supply - supply * m;
      MulLe(supply * ONE, backing, m);
      assert supply * ONE * m == supply * m * ONE;
      assert backing * (ONE - m) == backing * ONE - backing * m;
    }
  }

  /** The LSD sent is that formula, under the limit's remaining allowance. */
  lemma SentExactly(c: Storage, env: Env)
    requires c.maxRatio.Some? && Accrued(c, env).Ok?
    ensures Backed(env.held, c.token.supply, env.rate) && 0 < env.rate
    ensures MaxRate(c.maxRatio.value, c.ledger, env.now).Ok?
    ensures Accrued(c, env).value.lsd ==
            Sent(env.held, c.token.supply, env.rate, MaxRate(c.maxRatio.value, c.ledger, env.now).value)
    ensures Accrued(c, env).value.lsd <= env.held
  {
    DecreaseWithinCap(c, env);
    LimitedLeavesBacked(c, env);
  }

  /** A decompound at the same instant brings the token down to its forecast, up to two LSD, exactly when
      there are tokens or no more than two LSD are left: the forecast for no tokens is one by definition. */
  lemma ForecastIsReached(c: Storage, env: Env)
    requires c.maxRatio.Some? && ClockSane(c.ledger, env.now)
    requires Accrued(c, env).Ok? && Expected(c, env).Ok?
    ensures Backed(env.held, c.token.supply, env.rate) && 0 < env.rate
    ensures MaxRate(c.maxRatio.value, c.ledger, env.now).Ok?
    ensures var m := MaxRate(c.maxRatio.value, c.ledger, env.now).value;
            var left := env.held - Sent(env.held, c.token.supply, env.rate, m);
            && env.held - Accrued(c, env).value.lsd == left
            && (left * env.rate <= c.token.supply * (Expected(c, env).value + 1) + 2 * env.rate <==>
                  c.token.supply > 0 || left <= 2)
  {
    SentExactly(c, env);
    ForecastIsClamped(c, env);
    LimitedLeaves(c, env);
    var m := MaxRate(c.maxRatio.value, c.ledger, env.now).value;
    var left := env.held - Accrued(c, env).value.lsd;
    if c.token.supply > 0 {
      ForecastArithmetic(left, c.token.supply, env.rate, env.held * env.rate, m, Expected(c, env).value);
    } else if left <= 2 {
      MulLe(left, 2, env.rate);
    } else {
      MulLe(3, left, env.rate);
    }
  }

  /** An input without tokens: 91 of 100 LSD are left where the forecast allows two. */
  lemma ForecastOfNothing()
    ensures var c := Storage(EMPTY, "hub", Some(ONE), Ledger(0, 0, 0));
            var env := Env(ONE, 100, 3_153_600 * NANOS_PER_SECOND);
            && c.token.Valid() && Accrued(c, env).Ok? && Expected(c, env) == Ok(ONE)
            && env.held - Accrued(c, env).value.lsd == 91
            && 91 * env.rate > c.token.supply * (Expected(c, env).value + 1) + 2 * env.rate
  {
    assert MaxRate(ONE, Ledger(0, 0, 0), 3_153_600 * NANOS_PER_SECOND) == Ok(ONE / 10) by {
      assert Cap(ONE, 3_153_600) == ONE / 10;
    }
    assert Needed(0, ONE) == 0;
    assert (ONE / 10) * 100 / ONE == 10;
  }

  // ---------- when the forecast is kept ----------

  lemma KeptArithmetic(held: nat, sent: nat, rate: nat, supply: nat, m: nat, expected: nat)
    requires 0 < supply && sent <= held && Backed(held - sent, supply, rate)
    requires expected == if held * rate / supply < m + ONE then ONE else held * rate / supply - m
    ensures (held - sent) * rate >= supply * expected <==>
              held * rate < supply * (m + ONE) || sent * rate <= m * supply + held * rate % supply
  {
    var backing := held * rate;
    FloorGe(backing, supply, m + ONE);
    assert (held - sent) * rate == backing - sent * rate;
    assert supply * (m + ONE) == (m + ONE) * supply;
    var current := backing / supply;
    assert backing == current * supply + backing % supply;
    if current >= m + ONE {
      assert supply * expected == current * supply - m * supply;
    }
  }

  /** The token keeps its forecast, or more, exactly when its worth less the allowance is below one, or
      the LSD sent is worth at most the allowance on the supply and the rounding of the worth. */
  lemma ForecastIsKept(c: Storage, env: Env)
    requires c.maxRatio.Some? && ClockSane(c.ledger, env.now) && c.token.supply > 0
    requires Accrued(c, env).Ok? && Expected(c, env).Ok?
    ensures Backed(env.held, c.token.supply, env.rate) && 0 < env.rate
    ensures MaxRate(c.maxRatio.value, c.ledger, env.now).Ok?
    ensures var m := MaxRate(c.maxRatio.value, c.ledger, env.now).value;
            var supply, backing := c.token.supply, env.held * env.rate;
            var sent := Sent(env.held, supply, env.rate, m);
            && Accrued(c, env).value.lsd == sent
            && ((env.held - sent) * env.rate >= supply * Expected(c, env).value <==>
                  backing < supply * (m + ONE) || sent * env.rate <= m * supply + backing % supply)
  {
    SentExactly(c, env);
    ForecastIsClamped(c, env);
    LimitedLeavesBacked(c, env);
    var m := MaxRate(c.maxRatio.value, c.ledger, env.now).value;
    var sent := Sent(env.held, c.token.supply, env.rate, m);
    KeptArithmetic(env.held, sent, env.rate, c.token.supply, m, Expected(c, env).value);
  }

  lemma SmallAllowance(held: nat, supply: nat, rate: nat, m: nat, sent: nat)
    requires sent == 0 || sent + 1 <= m * held / ONE
    requires m * Surplus(held, supply, rate) <= rate * ONE
    ensures sent * rate <= m * supply
  {
    if sent != 0 {
      FloorGe(m * held, ONE, sent + 1);
      MulLe((sent + 1) * ONE, m * held, rate);
      assert (sent + 1) * ONE * rate == sent * rate * ONE + rate * ONE;
      assert m * held * rate == m * (held * rate);
      assert m * Surplus(held, supply, rate) == m * (held * rate) - m * supply * ONE;
    }
  }

  /** It is enough that the allowance, on what the backing exceeds the supply by, is worth at most one
      LSD. */
  lemma ForecastIsKeptIf(c: Storage, env: Env)
    requires c.maxRatio.Some? && ClockSane(c.ledger, env.now) && c.token.supply > 0
    requires Accrued(c, env).Ok? && Expected(c, env).Ok?
    requires MaxRate(c.maxRatio.value, c.ledger, env.now).Ok?
    requires MaxRate(c.maxRatio.value, c.ledger, env.now).value *
             Surplus(env.held, c.token.supply, env.rate) <= env.rate * ONE
    ensures (env.held - Accrued(c, env).value.lsd) * env.rate >= c.token.supply * Expected(c, env).value
  {
    ForecastIsKept(c, env);
    var m := MaxRate(c.maxRatio.value, c.ledger, env.now).value;
    SmallAllowance(env.held, c.token.supply, env.rate, m, Accrued(c, env).value.lsd);
  }

  /** Beyond that the forecast can be missed: the allowance is a share of the whole backing, but the
      forecast subtracts it as a share of one underlying token. Here a token worth 2 is forecast at 1.9
      and comes out at 1.8. */
  lemma ForecastIsNoLowerBound()
    ensures var balances: map<Addr, nat> := map["a" := 1_000_000_000_000];
            var c := Storage(Token(balances, map[], 1_000_000_000_000), "hub", Some(ONE), Ledger(0, 0, 0));
            var env := Env(ONE, 2_000_000_000_000, 3_153_600 * NANOS_PER_SECOND);
            && c.token.Valid() && Accrued(c, env).Ok? && Expected(c, env) == Ok(19 * ONE / 10)
            && env.held - Accrued(c, env).value.lsd == 1_800_000_000_001
            && (env.held - Accrued(c, env).value.lsd) * env.rate < c.token.supply * Expected(c, env).value
  {
    var balances: map<Addr, nat> := map["a" := 1_000_000_000_000];
    SumWithout(balances, "a");
    assert balances - {"a"} == map[];
    assert Cap(ONE, 3_153_600) == ONE / 10;
    assert Needed(1_000_000_000_000, ONE) == 1_000_000_000_000;
    assert (ONE / 10) * 2_000_000_000_000 / ONE == 200_000_000_000;
  }
}
