/** The backing of the rate-limited wrapper over whole runs: exactly which runs keep every token worth
    one underlying token, and a floor under its worth in the others. */
module LimitedBacking {
  import opened FixedPoint
  import opened Cw20
  import opened Lsd
  import opened Pricing
  import opened Cut
  import opened LimitedSpec
  import opened LimitedAccounts
  import opened LimitedDecompound
  import opened LimitedLedger
  import opened LimitedShares
  import opened LimitedTrading

  predicate IsBacked(w: World) {
    Backed(w.held, w.c.token.supply, w.rate)
  }

  // ---------- one call ----------

  lemma SurplusAfterBurn(held: nat, supply: nat, rate: nat, amount: nat, pay: nat)
    requires amount <= supply && pay <= held
    ensures Surplus(held - pay, supply - amount, rate) == Surplus(held, supply, rate) + amount * ONE - pay * rate
  {}

  /** A burn leaves the token backed exactly when its payout is worth no more than the burned tokens and
      the surplus, whether the token was backed before or not. */
  lemma BurnKeepsBackingExactly(w: World, info: Info, spendable: nat, msg: ExecuteMsg, w': World)
    requires w.c.token.Valid() && 0 < w.held && 0 < w.c.token.supply && IsBurn(msg)
    requires Transact(w, info, spendable, msg) == Ok(w')
    ensures var amount := Burned(w, info, msg);
            IsBacked(w') <==>
              Quoted(w.held, w.c.token.supply, amount) * w.rate
              <= amount * ONE + Surplus(w.held, w.c.token.supply, w.rate)
  {
    BurnTerms(w, info, spendable, msg, w');
    SurplusAfterBurn(w.held, w.c.token.supply, w.rate, Burned(w, info, msg), w.held - w'.held);
  }

  /** With no supply the price is one: a mint adds its tokens and at least as much LSD. */
  lemma FirstMintTerms(w: World, info: Info, spendable: nat, msg: ExecuteMsg, w': World)
    requires w.c.token.Valid() && w.c.token.supply == 0 && IsMint(msg)
    requires Transact(w, info, spendable, msg) == Ok(w')
    ensures w'.rate == w.rate
    ensures msg.Mint? ==> w'.c.token.supply == msg.amount && w'.held == w.held + msg.amount + 1
    ensures msg.MintWith? ==> w'.c.token.supply == msg.lsdAmount && w'.held == w.held + msg.lsdAmount
  {
    var amount := if msg.Mint? then msg.amount else msg.lsdAmount;
    MintCreates(w.c.token, msg.recipient, amount);
    FloorCancel(amount, 1, ONE);
  }

  lemma BackingFollowsShare(held: nat, supply: nat, held1: nat, supply1: nat, rate: nat)
    requires 0 < supply && Backed(held, supply, rate) && held1 * supply >= held * supply1
    ensures Backed(held1, supply1, rate)
  {
    MulLe(held * supply1, held1 * supply, rate);
    MulLe(supply * ONE, held * rate, supply1);
    assert held * supply1 * rate == held * rate * supply1;
    assert held1 * supply * rate == held1 * rate * supply;
    assert supply * ONE * supply1 == supply1 * ONE * supply;
    CancelLe(supply1 * ONE, held1 * rate, supply);
  }

  /** What a call must meet to leave a backed token backed, from what is known before it: a burn, the
      condition above; a first mint, that the LSD then held is worth the tokens; nothing otherwise. */
  predicate CallCovered(w: World, info: Info, msg: ExecuteMsg) {
    if IsBurn(msg) && 0 < w.held then
      Quoted(w.held, w.c.token.supply, Burned(w, info, msg)) * w.rate
      <= Burned(w, info, msg) * ONE + Surplus(w.held, w.c.token.supply, w.rate)
    else if msg.Mint? && w.c.token.supply == 0 then Backed(w.held + msg.amount + 1, msg.amount, w.rate)
    else if msg.MintWith? && w.c.token.supply == 0 then Backed(w.held + msg.lsdAmount, msg.lsdAmount, w.rate)
    else true
  }

  lemma BackedHolds(w: World)
    requires IsBacked(w) && 0 < w.c.token.supply
    ensures 0 < w.held
  {}

  lemma EmptyBurns(w: World, info: Info, spendable: nat, msg: ExecuteMsg, w': World)
    requires w.c.token.Valid() && w.c.token.supply == 0 && IsBurn(msg)
    requires Transact(w, info, spendable, msg) == Ok(w')
    ensures w'.c.token.supply == 0 && IsBacked(w') && CallCovered(w, info, msg)
  {
    BalanceBelowSum(w.c.token, info.sender);
    HandlerKeepsToken(w.c, w.View(), info, msg);
    if msg.BurnFrom? {
      BalanceBelowSum(w.c.token, msg.owner);
      SpendersAreAllowed(w.c.token, info.sender, msg.owner, msg.owner, msg.amount);
    }
    assert Burned(w, info, msg) == 0;
  }

  lemma CallKeepsBackingExactly(w: World, info: Info, spendable: nat, msg: ExecuteMsg, w': World)
    requires w.c.token.Valid() && IsBacked(w)
    requires Transact(w, info, spendable, msg) == Ok(w')
    ensures IsBacked(w') <==> CallCovered(w, info, msg)
  {
    LedgerWrites(w, info, spendable, msg, w');
    if msg.Decompound? {
      if Accrued(w.c, w.View()).Ok? { LimitedLeavesBacked(w.c, w.View()); }
    } else if w.c.token.supply == 0 {
      if IsBurn(msg) {
        EmptyBurns(w, info, spendable, msg, w');
      } else if IsMint(msg) {
        FirstMintTerms(w, info, spendable, msg, w');
      } else {
        OtherCallsKeepShare(w, info, spendable, msg, w');
      }
    } else {
      BackedHolds(w);
      if IsBurn(msg) {
        BurnKeepsBackingExactly(w, info, spendable, msg, w');
      } else {
        CallKeepsShareExactly(w, info, spendable, msg, w');
        BackingFollowsShare(w.held, w.c.token.supply, w'.held, w'.c.token.supply, w.rate);
      }
    }
  }

  // ---------- the runs that keep every token backed ----------

  /** What an event must meet: a rate must still make the holding worth the supply; a call that goes
      through must be covered. */
  predicate Covered(w: World, e: Event) {
    match e
    case Call(info, spendable, msg) => Transact(w, info, spendable, msg).Ok? ==> CallCovered(w, info, msg)
    case SetRate(rate) => rate <= MAX128 ==> Backed(w.held, w.c.token.supply, rate)
    case _ => true
  }

  predicate AllCovered(w: World, events: seq<Event>)
    decreases |events|
  {
    events == [] || (Covered(w, events[0]) && AllCovered(Step(w, events[0]), events[1..]))
  }

  predicate AlwaysBacked(w: World, events: seq<Event>)
    decreases |events|
  {
    IsBacked(w) && (events == [] || AlwaysBacked(Step(w, events[0]), events[1..]))
  }

  lemma EventKeepsBackingExactly(w: World, e: Event)
    requires w.c.token.Valid() && IsBacked(w)
    ensures IsBacked(Step(w, e)) <==> Covered(w, e)
  {
    match e
    case Call(info, spendable, msg) =>
      if Transact(w, info, spendable, msg).Ok? { CallKeepsBackingExactly(w, info, spendable, msg, Step(w, e)); }
    case Donate(amount) => MulLe(w.held, w.held + amount, w.rate);
    case _ =>
  }

  /** Any run, whatever its rates, burns and decompounds, keeps a backed token backed throughout exactly
      when each of its events is covered. */
  lemma {:induction false} RunKeepsBacking(w: World, events: seq<Event>)
    requires w.c.token.Valid() && IsBacked(w)
    ensures AlwaysBacked(w, events) <==> AllCovered(w, events)
    decreases |events|
  {
    if events == [] {
    } else {
      EventKeepsToken(w, events[0]);
      EventKeepsBackingExactly(w, events[0]);
      if IsBacked(Step(w, events[0])) { RunKeepsBacking(Step(w, events[0]), events[1..]); }
    }
  }

  /** From instantiation on, it must also have given out no tokens. */
  lemma ReachableIsBacked(
    coins: seq<Cw20Coin>, hub: Addr, maxRatio: Option<nat>, rate: nat, now: nat, events: seq<Event>, w: World)
    requires Start(coins, hub, maxRatio, rate, now) == Ok(w)
    ensures AlwaysBacked(w, events) <==> Issued(coins) == 0 && AllCovered(w, events)
  {
    CreateHolds(coins);
    if Issued(coins) == 0 { RunKeepsBacking(w, events); }
  }

  lemma BackingFollowsRate(held: nat, supply: nat, rate: nat, rate1: nat)
    requires Backed(held, supply, rate) && rate <= rate1
    ensures Backed(held, supply, rate1)
  {
    MulLe(rate, rate1, held);
  }

  lemma FairCallIsCovered(w: World, info: Info, spendable: nat, msg: ExecuteMsg)
    requires w.c.token.Valid() && IsBacked(w) && ONE <= w.rate && Transact(w, info, spendable, msg).Ok?
    requires FairEvent(w, Call(info, spendable, msg))
    ensures CallCovered(w, info, msg)
  {
    var w' := Transact(w, info, spendable, msg).value;
    if w.c.token.supply == 0 {
      if IsBurn(msg) { EmptyBurns(w, info, spendable, msg, w'); }
      if IsMint(msg) { BackingFollowsRate(if msg.Mint? then w.held + msg.amount + 1 else w.held + msg.lsdAmount,
                                          if msg.Mint? then msg.amount else msg.lsdAmount, ONE, w.rate); }
    } else if IsBurn(msg) {
      BackedHolds(w);
      BurnKeepsShareExactly(w, info, spendable, msg, w');
      BackingFollowsShare(w.held, w.c.token.supply, w'.held, w'.c.token.supply, w.rate);
      assert w'.rate == w.rate by { LedgerWrites(w, info, spendable, msg, w'); }
      BurnKeepsBackingExactly(w, info, spendable, msg, w');
    }
  }

  lemma StepRate(w: World, e: Event)
    requires e.SetRate? ==> e.rate <= MAX128
    ensures Step(w, e).rate == if e.SetRate? then e.rate else w.rate
  {}

  /** In particular, at rates that start at one or more and do not fall, fair burns are covered. */
  lemma {:induction false} FairRunsStayBacked(w: World, events: seq<Event>)
    requires w.c.token.Valid() && IsBacked(w) && ONE <= w.rate
    requires RatesRise(w.rate, events) && AllFair(w, events)
    ensures AlwaysBacked(w, events)
    decreases |events|
  {
    if events == [] {
    } else {
      var e := events[0];
      if e.Call? && Transact(w, e.info, e.spendable, e.msg).Ok? {
        FairCallIsCovered(w, e.info, e.spendable, e.msg);
      } else if e.SetRate? {
        BackingFollowsRate(w.held, w.c.token.supply, w.rate, e.rate);
      }
      StepRate(w, e);
      EventKeepsToken(w, e);
      EventKeepsBackingExactly(w, e);
      FairRunsStayBacked(Step(w, e), events[1..]);
    }
  }

  /** Burns that are not covered exist: minting 300 * 10^18 tokens into the empty wrapper and burning
      200 * 10^18 of them at rate one leaves the others worth less than one underlying token each. */
  lemma BurnCanUnback()
    ensures var w := Start([], "hub", None, ONE, 0).value;
            var minted := Step(w, Call(Info("a", []), MAX128, Mint("a", 300 * ONE)));
            var burned := Step(minted, Call(Info("a", []), 0, Burn(200 * ONE)));
            && minted.c.token.supply == 300 * ONE && IsBacked(minted)
            && burned.c.token.supply == 100 * ONE && burned.held == 100 * ONE - 199
            && !IsBacked(burned)
  {
    assert 300 * ONE * ONE / (300 * ONE + 1) == ONE - 1;
  }

  // ---------- a floor under the worth in every run ----------

  /** One token, if there is any, is worth at least x underlying atomics. */
  ghost predicate WorthAtLeast(w: World, x: real) {
    w.c.token.supply == 0 || w.rate as real * Share(w.held, w.c.token.supply) >= x
  }

  lemma WorthWeakens(w: World, x: real, y: real)
    requires WorthAtLeast(w, x) && y <= x
    ensures WorthAtLeast(w, y)
  {}

  lemma BackedIsWorthOne(w: World)
    ensures WorthAtLeast(w, ONE as real) <==> IsBacked(w)
  {
    var supply := w.c.token.supply;
    if supply != 0 {
      var x := Share(w.held, supply);
      assert x * supply as real == w.held as real;
      assert (w.held * w.rate) as real == w.rate as real * x * supply as real;
      assert (supply * ONE) as real == ONE as real * supply as real;
    }
  }

  /** The underlying worth of a burn's loss. */
  function WorthLoss(w: World, e: Event): real {
    w.rate as real * BurnLoss(w, e)
  }

  function WorthLosses(w: World, events: seq<Event>): real
    decreases |events|
  {
    if events == [] then 0.0 else WorthLoss(w, events[0]) + WorthLosses(Step(w, events[0]), events[1..])
  }

  lemma BurnLossIsNonNegative(w: World, e: Event)
    ensures BurnLoss(w, e) >= 0.0 && WorthLoss(w, e) >= 0.0
  {
    if e.Call? && 0 < w.held { LossIsNonNegative(w.held, w.c.token.supply, Burned(w, e.info, e.msg)); }
  }

  lemma ScaleBy(r: real, y: real, x: real, loss: real)
    requires r >= 0.0 && y >= x - loss
    ensures r * y >= r * x - r * loss
  {
    assert r * (y - x + loss) >= 0.0;
  }

  lemma DecompoundKeepsWorth(w: World, info: Info, spendable: nat, to: Option<Addr>, w': World, x: real)
    requires WorthAtLeast(w, x) && x <= ONE as real
    requires Transact(w, info, spendable, Decompound(to)) == Ok(w')
    ensures WorthAtLeast(w', x)
  {
    LedgerWrites(w, info, spendable, Decompound(to), w');
    if Accrued(w.c, w.View()).Ok? {
      LimitedLeavesBacked(w.c, w.View());
      BackedIsWorthOne(w');
      WorthWeakens(w', ONE as real, x);
    }
  }

  /** With one LSD for each token, each is worth at least the rate. */
  lemma OneLsdEach(w: World, x: real)
    requires w.c.token.supply <= w.held && x <= w.rate as real
    ensures WorthAtLeast(w, x)
  {
    if w.c.token.supply != 0 {
      ShareOrder(1, 1, w.held, w.c.token.supply);
      ScaleBy(w.rate as real, Share(w.held, w.c.token.supply), Share(1, 1), 0.0);
    }
  }

  lemma FirstMintKeepsWorth(w: World, info: Info, spendable: nat, msg: ExecuteMsg, w': World, x: real)
    requires w.c.token.Valid() && w.c.token.supply == 0 && IsMint(msg) && x <= w.rate as real
    requires Transact(w, info, spendable, msg) == Ok(w')
    ensures WorthAtLeast(w', x)
  {
    FirstMintTerms(w, info, spendable, msg, w');
    OneLsdEach(w', x);
  }

  lemma RateRiseKeepsWorth(w: World, rate: nat, x: real)
    requires WorthAtLeast(w, x) && w.rate <= rate
    ensures WorthAtLeast(w.(rate := rate), x)
  {
    if w.c.token.supply != 0 { ScaleBy(Share(w.held, w.c.token.supply), rate as real, w.rate as real, 0.0); }
  }

  lemma WorthFollowsShare(w: World, w': World, loss: real, x: real)
    requires 0 < w.c.token.supply && w'.rate == w.rate && WorthAtLeast(w, x) && LosesAtMost(w, w', loss)
    ensures WorthAtLeast(w', x - w.rate as real * loss)
  {
    if 0 < w'.c.token.supply {
      ScaleBy(w.rate as real, Share(w'.held, w'.c.token.supply), Share(w.held, w.c.token.supply), loss);
    }
  }

  /** From an empty supply only a mint makes tokens. */
  lemma EmptyKeepsWorth(w: World, e: Event, x: real)
    requires w.c.token.Valid() && w.c.token.supply == 0 && x <= w.rate as real && !IsDecompound(e)
    ensures WorthAtLeast(Step(w, e), x)
  {
    if e.Call? && Transact(w, e.info, e.spendable, e.msg).Ok? {
      if IsMint(e.msg) {
        FirstMintKeepsWorth(w, e.info, e.spendable, e.msg, Step(w, e), x);
      } else {
        HandlerKeepsToken(w.c, w.View(), e.info, e.msg);
      }
    }
  }

  lemma TradeKeepsWorth(w: World, e: Event, x: real)
    requires w.c.token.Valid() && 0 < w.c.token.supply && !IsDecompound(e) && !e.SetRate?
    requires WorthAtLeast(w, x)
    ensures WorthAtLeast(Step(w, e), x - WorthLoss(w, e))
  {
    EventLosesAtMost(w, e);
    assert Step(w, e).rate == w.rate by { StepRate(w, e); }
    WorthFollowsShare(w, Step(w, e), BurnLoss(w, e), x);
  }

  lemma EventKeepsWorth(w: World, e: Event, x: real)
    requires w.c.token.Valid() && WorthAtLeast(w, x) && x <= w.rate as real && x <= ONE as real
    requires e.SetRate? ==> w.rate <= e.rate <= MAX128
    ensures WorthAtLeast(Step(w, e), x - WorthLoss(w, e))
  {
    BurnLossIsNonNegative(w, e);
    if e.SetRate? {
      RateRiseKeepsWorth(w, e.rate, x);
      WorthWeakens(Step(w, e), x, x - WorthLoss(w, e));
    } else if IsDecompound(e) {
      if Transact(w, e.info, e.spendable, e.msg).Ok? {
        DecompoundKeepsWorth(w, e.info, e.spendable, e.msg.to, Step(w, e), x);
      }
      WorthWeakens(Step(w, e), x, x - WorthLoss(w, e));
    } else if w.c.token.supply == 0 {
      EmptyKeepsWorth(w, e, x);
      WorthWeakens(Step(w, e), x, x - WorthLoss(w, e));
    } else {
      TradeKeepsWorth(w, e, x);
    }
  }

  /** Over any run whose rates do not fall, decompounds included and whatever is burned, one token's worth
      falls below x, at most one and at most the first rate, by no more than the worth of the losses of
      the burns. */
  lemma {:induction false} RunKeepsWorth(w: World, events: seq<Event>, x: real)
    requires w.c.token.Valid() && WorthAtLeast(w, x) && x <= w.rate as real && x <= ONE as real
    requires RatesRise(w.rate, events)
    ensures WorthAtLeast(Run(w, events), x - WorthLosses(w, events))
    decreases |events|
  {
    if events == [] {
    } else {
      EventKeepsToken(w, events[0]);
      EventKeepsWorth(w, events[0], x);
      BurnLossIsNonNegative(w, events[0]);
      StepRate(w, events[0]);
      RunKeepsWorth(Step(w, events[0]), events[1..], x - WorthLoss(w, events[0]));
    }
  }

  /** From an instantiation that gives out no tokens on, every token is worth at least the smaller of one
      and the first rate, less those losses. */
  lemma ReachableWorth(
    coins: seq<Cw20Coin>, hub: Addr, maxRatio: Option<nat>, rate: nat, now: nat, events: seq<Event>, w: World)
    requires Start(coins, hub, maxRatio, rate, now) == Ok(w) && Issued(coins) == 0
    requires RatesRise(rate, events)
    ensures WorthAtLeast(Run(w, events), Min(ONE, rate) as real - WorthLosses(w, events))
  {
    CreateHolds(coins);
    RunKeepsWorth(w, events, Min(ONE, rate) as real);
  }
}
