/** The ledger of the rate-limited wrapper over whole runs: its clock, its cap, and what it says about
    the LSD really taken out. */
module LimitedLedger {
  import opened FixedPoint
  import opened Cw20
  import opened Lsd
  import opened Pricing
  import opened LimitedSpec
  import opened LimitedDecompound
  import opened Cut

  // ---------- the ledger invariant ----------

  /** The ledger of a wrapper instantiated at `born`: its clock telescopes to the seconds between then
      and the last decompound, and its sum is within the cap for those seconds. */
  predicate LedgerOk(w: World, born: nat) {
    var l := w.c.ledger;
    && born <= l.lastDecompound <= w.now <= MAX64
    && l.totalSeconds == Seconds(l.lastDecompound) - Seconds(born)
    && (w.c.maxRatio.Some? ==> l.ratioSum <= Cap(w.c.maxRatio.value, l.totalSeconds))
  }

  /** The seconds since instantiation, at the ledger's own clock or later. */
  lemma PeriodTelescopes(w: World, born: nat)
    requires LedgerOk(w, born)
    ensures Seconds(born) <= Seconds(w.now)
    ensures Period(w.c.ledger, w.now) == Ok(Seconds(w.now) - Seconds(born))
    ensures ClockSane(w.c.ledger, w.now)
  {}

  lemma CapMono(maxRatio: nat, s: nat, t: nat)
    requires s <= t
    ensures Cap(maxRatio, s) <= Cap(maxRatio, t)
  {
    FloorMono(s * ONE, t * ONE, SECONDS_PER_YEAR);
    MulLe(s * ONE / SECONDS_PER_YEAR, t * ONE / SECONDS_PER_YEAR, maxRatio);
    FloorMono(maxRatio * (s * ONE / SECONDS_PER_YEAR), maxRatio * (t * ONE / SECONDS_PER_YEAR), ONE);
  }

  /** The cap is the yearly limit: whole years allow exactly their multiple of it, and any span of time its
      part of a year, short of less than one atomic and what the floor of that part hides. */
  lemma CapIsYearly(maxRatio: nat, seconds: nat, years: nat)
    ensures Cap(maxRatio, years * SECONDS_PER_YEAR) == maxRatio * years
    ensures Cap(maxRatio, seconds) * SECONDS_PER_YEAR <= maxRatio * seconds
    ensures var part := seconds * ONE / SECONDS_PER_YEAR;
            Cap(maxRatio, seconds) * ONE <= maxRatio * part < (Cap(maxRatio, seconds) + 1) * ONE
    ensures maxRatio * seconds * ONE < ((Cap(maxRatio, seconds) + 1) * ONE + maxRatio) * SECONDS_PER_YEAR
  {
    FloorCancel(years * ONE, 1, SECONDS_PER_YEAR);
    assert years * SECONDS_PER_YEAR * ONE == years * ONE * SECONDS_PER_YEAR;
    FloorCancel(maxRatio * years, 1, ONE);
    assert maxRatio * (years * ONE) == maxRatio * years * ONE;
    var part := seconds * ONE / SECONDS_PER_YEAR;
    Floor(seconds * ONE, SECONDS_PER_YEAR);
    Floor(maxRatio * part, ONE);
    MulLe(part * SECONDS_PER_YEAR, seconds * ONE, maxRatio);
    assert part * SECONDS_PER_YEAR * maxRatio == maxRatio * part * SECONDS_PER_YEAR;
    assert seconds * ONE * maxRatio == maxRatio * seconds * ONE;
    MulLe(seconds * ONE, part * SECONDS_PER_YEAR + SECONDS_PER_YEAR, maxRatio);
    assert (part * SECONDS_PER_YEAR + SECONDS_PER_YEAR) * maxRatio == (maxRatio * part + maxRatio) * SECONDS_PER_YEAR;
  }

  /** The remaining allowance is the cap over the wrapper's whole life less the recorded sum. The error
      for having decompounded too much is unreachable; only an overflowing cap can fail. */
  lemma CapNeverExceeded(w: World, born: nat)
    requires LedgerOk(w, born) && w.c.maxRatio.Some?
    ensures Seconds(born) <= Seconds(w.now)
    ensures var cap := Cap(w.c.maxRatio.value, Seconds(w.now) - Seconds(born));
            && w.c.ledger.ratioSum <= cap
            && MaxRate(w.c.maxRatio.value, w.c.ledger, w.now) ==
               if cap > MAX128 then Err(Panic) else Ok(cap - w.c.ledger.ratioSum)
  {
    PeriodTelescopes(w, born);
    FloorMono(w.c.ledger.lastDecompound, w.now, NANOS_PER_SECOND);
    CapMono(w.c.maxRatio.value, w.c.ledger.totalSeconds, Seconds(w.now) - Seconds(born));
  }

  /** Only a decompound that computes rewards writes the ledger: it adds the decrease and moves the
      clock strictly forward to now. Everything else, a token that is not backed included, leaves the
      ledger alone. */
  lemma LedgerWrites(w: World, info: Info, spendable: nat, msg: ExecuteMsg, w': World)
    requires Transact(w, info, spendable, msg) == Ok(w')
    ensures w'.c.maxRatio == w.c.maxRatio && w'.c.hub == w.c.hub && w'.now == w.now && w'.rate == w.rate
    ensures if msg.Decompound? && Accrued(w.c, w.View()).Ok? then
              && info.sender == w.c.hub
              && w.c.ledger.lastDecompound < w'.c.ledger.lastDecompound == w.now
              && Ok(w'.c.ledger.totalSeconds) == Period(w.c.ledger, w.now)
              && w'.c.ledger.ratioSum == w.c.ledger.ratioSum + Accrued(w.c, w.View()).value.rateDecrease
              && w'.c.token == w.c.token
              && w'.held == w.held - Accrued(w.c, w.View()).value.lsd
            else
              && w'.c.ledger == w.c.ledger
              && (msg.Decompound? ==> w' == w)
  {}

  lemma StepKeepsLedger(w: World, e: Event, born: nat)
    requires LedgerOk(w, born)
    ensures LedgerOk(Step(w, e), born)
    ensures Step(w, e).c.maxRatio == w.c.maxRatio && Step(w, e).c.hub == w.c.hub
  {
    if e.Call? && Transact(w, e.info, e.spendable, e.msg).Ok? {
      var w' := Step(w, e);
      LedgerWrites(w, e.info, e.spendable, e.msg, w');
      PeriodTelescopes(w, born);
      if e.msg.Decompound? && Accrued(w.c, w.View()).Ok? && w.c.maxRatio.Some? {
        DecreaseWithinCap(w.c, w.View());
        CapNeverExceeded(w, born);
      }
    }
  }

  /** In every reachable state the ledger's clock telescopes and its sum is within the cap; the limit and the
      hub are those of the instantiation. */
  lemma {:induction false} RunKeepsLedger(w: World, events: seq<Event>, born: nat)
    requires LedgerOk(w, born)
    ensures LedgerOk(Run(w, events), born)
    ensures Run(w, events).c.maxRatio == w.c.maxRatio && Run(w, events).c.hub == w.c.hub
    decreases |events|
  {
    if events == [] {
    } else {
      StepKeepsLedger(w, events[0], born);
      RunKeepsLedger(Step(w, events[0]), events[1..], born);
    }
  }

  lemma ReachableLedger(
    coins: seq<Cw20Coin>, hub: Addr, maxRatio: Option<nat>, rate: nat, born: nat, events: seq<Event>, w: World)
    requires born <= MAX64 && Start(coins, hub, maxRatio, rate, born) == Ok(w)
    ensures w.c.ledger.ratioSum == 0 && LedgerOk(Run(w, events), born)
    ensures Run(w, events).c.maxRatio == maxRatio && Run(w, events).c.hub == hub
  {
    CreateHolds(coins);
    RunKeepsLedger(w, events, born);
  }

  // ---------- what is really taken out ----------

  /** The event is a decompound that takes its rewards. */
  predicate Takes(w: World, e: Event) {
    e.Call? && e.msg.Decompound? && Transact(w, e.info, e.spendable, e.msg).Ok? && Accrued(w.c, w.View()).Ok?
  }

  /** The share of the LSD held that leaves with the event, when it is a decompound. */
  function ShareTaken(w: World, e: Event): nat {
    if Takes(w, e) && w.held > 0 then SentShare(w.held - Step(w, e).held, w.held) else 0
  }

  function SlackAt(w: World, e: Event): nat {
    if Takes(w, e) && w.held * w.rate > 0 then Slack(w.held, w.rate) else 0
  }

  function SharesTaken(w: World, events: seq<Event>): nat
    decreases |events|
  {
    if events == [] then 0 else ShareTaken(w, events[0]) + SharesTaken(Step(w, events[0]), events[1..])
  }

  function Slacks(w: World, events: seq<Event>): nat
    decreases |events|
  {
    if events == [] then 0 else SlackAt(w, events[0]) + Slacks(Step(w, events[0]), events[1..])
  }

  lemma StepTakesWithinRecord(w: World, e: Event)
    ensures Step(w, e).held <= w.held || !Takes(w, e)
    ensures w.c.ledger.ratioSum + ShareTaken(w, e) <= Step(w, e).c.ledger.ratioSum + SlackAt(w, e)
  {
    if e.Call? && Transact(w, e.info, e.spendable, e.msg).Ok? {
      LedgerWrites(w, e.info, e.spendable, e.msg, Step(w, e));
      if Takes(w, e) { ShareWithinRecord(w.c, w.View()); }
    }
  }

  /** The shares taken over a run are what the ledger recorded meanwhile, up to the slacks. */
  lemma {:induction false} RunTakesWithinRecord(w: World, events: seq<Event>)
    ensures w.c.ledger.ratioSum + SharesTaken(w, events) <= Run(w, events).c.ledger.ratioSum + Slacks(w, events)
    decreases |events|
  {
    if events == [] {
    } else {
      StepTakesWithinRecord(w, events[0]);
      RunTakesWithinRecord(Step(w, events[0]), events[1..]);
    }
  }

  /** Real extraction is bounded over whole runs: however mints, burns, donations, rate moves and
      decompounds are scheduled, the shares of the holding that decompounds send away add up to no more
      than the cap for the seconds on the ledger, and the slacks of the decompounds that took them. */
  lemma ExtractionIsCapped(
    coins: seq<Cw20Coin>, hub: Addr, maxRatio: nat, rate: nat, born: nat, events: seq<Event>, w: World)
    requires born <= MAX64 && Start(coins, hub, Some(maxRatio), rate, born) == Ok(w)
    ensures var w' := Run(w, events);
            && w'.c.ledger.totalSeconds <= Seconds(w'.now) - Seconds(born)
            && SharesTaken(w, events) <= Cap(maxRatio, w'.c.ledger.totalSeconds) + Slacks(w, events)
  {
    CreateHolds(coins);
    RunKeepsLedger(w, events, born);
    PeriodTelescopes(Run(w, events), born);
    FloorMono(Run(w, events).c.ledger.lastDecompound, Run(w, events).now, NANOS_PER_SECOND);
    RunTakesWithinRecord(w, events);
  }

  /** The number of decompounds of a run that take their rewards. */
  function Takings(w: World, events: seq<Event>): nat
    decreases |events|
  {
    if events == [] then 0 else (if Takes(w, events[0]) then 1 else 0) + Takings(Step(w, events[0]), events[1..])
  }

  /** Decompounds happen only on holdings worth 2 * ONE underlying tokens or more, at decimal rates up to ONE. */
  predicate Ample(w: World, events: seq<Event>)
    decreases |events|
  {
    events == [] ||
    ((Takes(w, events[0]) ==> w.rate <= ONE * ONE && w.held * w.rate >= 2 * ONE * ONE)
     && Ample(Step(w, events[0]), events[1..]))
  }

  lemma {:induction false} SlacksAreSmall(w: World, events: seq<Event>)
    requires Ample(w, events)
    ensures Slacks(w, events) <= 2 * Takings(w, events)
    decreases |events|
  {
    if events == [] {
    } else {
      if Takes(w, events[0]) { SlackIsSmall(w.held, w.rate); }
      SlacksAreSmall(Step(w, events[0]), events[1..]);
    }
  }

  /** For such runs extraction exceeds the cap by at most two atomics, 2 parts in ONE, a decompound. */
  lemma ExtractionIsCappedClosely(
    coins: seq<Cw20Coin>, hub: Addr, maxRatio: nat, rate: nat, born: nat, events: seq<Event>, w: World)
    requires born <= MAX64 && Start(coins, hub, Some(maxRatio), rate, born) == Ok(w) && Ample(w, events)
    ensures SharesTaken(w, events) <= Cap(maxRatio, Run(w, events).c.ledger.totalSeconds) + 2 * Takings(w, events)
  {
    ExtractionIsCapped(coins, hub, maxRatio, rate, born, events, w);
    SlacksAreSmall(w, events);
  }

  // ---------- every reachable state ----------

  /** In every reachable state the forecast of a backed token is its rate less what the cap still allows
      over the wrapper's whole life, clamped between one and the current rate. */
  lemma ReachableForecast(w: World, born: nat)
    requires LedgerOk(w, born) && w.c.maxRatio.Some? && Backed(w.held, w.c.token.supply, w.rate)
    requires Expected(w.c, w.View()).Ok?
    ensures Seconds(born) <= Seconds(w.now)
    ensures var current := CurrentRate(w.held, w.c.token.supply, w.rate).value;
            var allowed := Cap(w.c.maxRatio.value, Seconds(w.now) - Seconds(born)) - w.c.ledger.ratioSum;
            var expected := Expected(w.c, w.View()).value;
            && 0 <= allowed && ONE <= expected <= current
            && expected == (if current < allowed + ONE then ONE else current - allowed)
  {
    PeriodTelescopes(w, born);
    CapNeverExceeded(w, born);
    FloorMono(w.c.ledger.lastDecompound, w.now, NANOS_PER_SECOND);
    ForecastIsClamped(w.c, w.View());
  }

  /** No call in any reachable state fails for having decompounded too much. */
  lemma CapErrorUnreachable(w: World, born: nat, info: Info, spendable: nat, msg: ExecuteMsg)
    requires LedgerOk(w, born)
    ensures Transact(w, info, spendable, msg) != Err(CapExceeded)
  {
    if w.c.maxRatio.Some? { CapNeverExceeded(w, born); }
  }

  /** What the limit still allows in a state with the ledger invariant: the cap over the wrapper's whole
      life, less the recorded sum. */
  function Allowed(w: World, born: nat): nat
    requires LedgerOk(w, born) && w.c.maxRatio.Some?
  {
    CapNeverExceeded(w, born);
    Cap(w.c.maxRatio.value, Seconds(w.now) - Seconds(born)) - w.c.ledger.ratioSum
  }

  /** The limit, if there is one, is computable: the cap and the allowed shares of the backing and of the
      holding fit 128 bits. */
  predicate LimitFits(w: World, born: nat)
    requires LedgerOk(w, born)
  {
    w.c.maxRatio.Some? ==>
      && Allowed(w, born) + w.c.ledger.ratioSum <= MAX128
      && Allowed(w, born) * (w.held * w.rate) / ONE <= MAX128
      && Allowed(w, born) * w.held / ONE <= MAX128
  }

  /** The exact states in which the forecast is known: the holding can be priced and, for a backed token with
      a limit, the cap and the rate with the recorded sum fit. */
  lemma ReachableForecastExactly(w: World, born: nat)
    requires LedgerOk(w, born)
    ensures var current := CurrentRate(w.held, w.c.token.supply, w.rate);
            Expected(w.c, w.View()).Ok? <==>
              && w.held * ONE <= MAX128 && w.held * w.rate <= MAX128
              && (w.c.maxRatio.Some? && Backed(w.held, w.c.token.supply, w.rate) ==>
                    && current.value + w.c.ledger.ratioSum <= MAX128
                    && Allowed(w, born) + w.c.ledger.ratioSum <= MAX128)
  {
    PeriodTelescopes(w, born);
    FloorMono(w.c.ledger.lastDecompound, w.now, NANOS_PER_SECOND);
    CurrentRateIsWorth(w.held, w.c.token.supply, w.rate);
  }

  /** The LSD reward after the limit, before the cut. */
  function LimitedLsd(w: World, born: nat, gross: nat): nat
    requires LedgerOk(w, born)
  {
    if w.c.maxRatio.None? then gross else Min(gross, Allowed(w, born) * w.held / ONE)
  }

  lemma ReachableLimit(w: World, born: nat, gross: Rewards)
    requires LedgerOk(w, born)
    ensures var limited := Limited(w.c, gross, w.View());
            && (limited.Ok? <==> LimitFits(w, born))
            && (limited.Ok? ==> limited.value.lsd == LimitedLsd(w, born, gross.lsd))
  {
    if w.c.maxRatio.Some? { CapNeverExceeded(w, born); }
  }

  lemma AccruedIsPriced(c: Storage, env: Env)
    requires Backed(env.held, c.token.supply, env.rate)
    ensures Accrued(c, env) != Err(NoRewards)
    ensures Accrued(c, env).Ok? ==>
              0 < env.held && 0 < env.rate && env.held * ONE <= MAX128 && env.held * env.rate <= MAX128
  {
    if c.maxRatio.Some? { assert MaxRate(c.maxRatio.value, c.ledger, env.now) != Err(NoRewards); }
  }

  /** The exact states in which the rewards of a backed token are computed, with a limit or without. */
  lemma ReachableAccrued(w: World, born: nat)
    requires LedgerOk(w, born) && Backed(w.held, w.c.token.supply, w.rate)
    ensures Accrued(w.c, w.View()).Ok? <==>
              && 0 < w.held && 0 < w.rate && w.held * ONE <= MAX128 && w.held * w.rate <= MAX128
              && LimitFits(w, born)
              && !(LimitedLsd(w, born, Gross(w.held, w.c.token.supply, w.rate).lsd) > 0
                   && CutUnderflows(w.held, w.c.token.supply, w.rate))
  {
    AccruedIsPriced(w.c, w.View());
    if 0 < w.held && 0 < w.rate && w.held * ONE <= MAX128 && w.held * w.rate <= MAX128 {
      ReachableLimit(w, born, Gross(w.held, w.c.token.supply, w.rate));
      LimitedExactly(w.c, w.View());
    }
  }

  /** The decompound of a slashed token changes nothing at all, and goes through whenever the hub calls and
      the holding can be priced. */
  lemma SlashedDecompound(w: World, info: Info, spendable: nat, to: Option<Addr>)
    requires !Backed(w.held, w.c.token.supply, w.rate)
    ensures var t := Transact(w, info, spendable, Decompound(to));
            && (t.Ok? <==> info.sender == w.c.hub && w.held * ONE <= MAX128 && w.held * w.rate <= MAX128)
            && (t.Ok? ==> t.value == w)
  {
    CurrentRateIsWorth(w.held, w.c.token.supply, w.rate);
  }

  /** The exact states in which a decompound of a backed token goes through: the hub calls, the block
      time has moved on, the rewards are computed, and the new sum fits, which a limit guarantees. */
  lemma ReachableDecompound(w: World, born: nat, info: Info, spendable: nat, to: Option<Addr>)
    requires LedgerOk(w, born) && Backed(w.held, w.c.token.supply, w.rate)
    ensures var accrued := Accrued(w.c, w.View());
            && (Transact(w, info, spendable, Decompound(to)).Ok? <==>
                  && info.sender == w.c.hub && w.c.ledger.lastDecompound < w.now
                  && accrued.Ok? && w.c.ledger.ratioSum + accrued.value.rateDecrease <= MAX128)
            && (w.c.maxRatio.Some? && accrued.Ok? ==>
                  w.c.ledger.ratioSum + accrued.value.rateDecrease <= MAX128)
  {
    AccruedIsPriced(w.c, w.View());
    PeriodTelescopes(w, born);
    if w.c.maxRatio.Some? { CapNeverExceeded(w, born); }
    if Accrued(w.c, w.View()).Ok? {
      if w.c.maxRatio.Some? { DecreaseWithinCap(w.c, w.View()); }
      LimitedLeavesBacked(w.c, w.View());
    }
  }
}
