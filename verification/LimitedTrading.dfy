/** Trading with the rate-limited wrapper: exactly when a burn lowers the LSD behind the tokens that
    remain, and how much a whole run of trades can lower it. */
module LimitedTrading {
  import opened FixedPoint
  import opened Cw20
  import opened Lsd
  import opened Pricing
  import opened LimitedSpec
  import opened LimitedAccounts
  import opened LimitedShares

  lemma EventKeepsToken(w: World, e: Event)
    requires w.c.token.Valid()
    ensures Step(w, e).c.token.Valid()
  {
    if e.Call? && Transact(w, e.info, e.spendable, e.msg).Ok? { HandlerKeepsToken(w.c, w.View(), e.info, e.msg); }
  }

  // ---------- the share behind one token ----------

  /** The LSD behind one token. */
  function Share(held: nat, supply: nat): real
    requires 0 < supply
  {
    held as real / supply as real
  }

  /** Integer products order shares. */
  lemma ShareOrder(held: nat, supply: nat, held1: nat, supply1: nat)
    requires 0 < supply && 0 < supply1
    ensures Share(held1, supply1) >= Share(held, supply) <==> held1 * supply >= held * supply1
  {
    var x, y := Share(held, supply), Share(held1, supply1);
    assert x * supply as real == held as real && y * supply1 as real == held1 as real;
    assert (held1 * supply) as real == y * (supply1 as real * supply as real);
    assert (held * supply1) as real == x * (supply1 as real * supply as real);
  }

  /** A shortfall of the cross product, spread over both supplies, is the shortfall of the share. */
  lemma ShortfallOfShare(held: nat, supply: nat, held1: nat, supply1: nat, short: nat)
    requires 0 < supply && 0 < supply1 && held1 * supply * ONE + short >= held * supply1 * ONE
    ensures 0 < supply * supply1 * ONE
    ensures Share(held1, supply1) >= Share(held, supply) - short as real / (supply * supply1 * ONE) as real
  {
    var x, y := Share(held, supply), Share(held1, supply1);
    var n := (supply * supply1 * ONE) as real;
    var z := short as real / n;
    assert x * supply as real == held as real && y * supply1 as real == held1 as real;
    assert n == supply as real * supply1 as real * ONE as real;
    assert y * n == (held1 * supply * ONE) as real;
    assert x * n == (held * supply1 * ONE) as real;
    assert z * n == short as real;
    assert (y + z - x) * n >= 0.0;
  }

  // ---------- one burn ----------

  /** The remainders of the price and of the payout weigh so that the payout is within its share. */
  predicate Fair(held: nat, supply: nat, amount: nat)
    requires 0 < held
  {
    var price := supply * ONE / held;
    price == 0 || Quoted(held, supply, amount) * (supply * ONE % held) <= amount * ONE % price * held
  }

  /** A burn whose payout times holding is at most one in atomics is fair. */
  lemma SmallBurnsAreFair(held: nat, supply: nat, amount: nat)
    requires 0 < held && 0 < supply && Quoted(held, supply, amount) * held <= ONE
    requires amount != 0 ==> BurnPay(amount, supply * ONE / held) == Ok(Quoted(held, supply, amount))
    ensures Fair(held, supply, amount)
  {
    if amount != 0 { BurnAgainstShare(held, supply, amount, Quoted(held, supply, amount)); }
  }

  lemma CrossAfterBurn(held: nat, supply: nat, amount: nat, pay: nat)
    requires amount <= supply && pay <= held
    ensures (held - pay) * supply - held * (supply - amount) == amount * held - pay * supply
  {}

  lemma FairCross(held: nat, supply: nat, amount: nat)
    requires 0 < held && 0 < supply
    requires amount != 0 ==> BurnPay(amount, supply * ONE / held) == Ok(Quoted(held, supply, amount))
    ensures var pay := Quoted(held, supply, amount);
            && (pay * supply <= amount * held <==> Fair(held, supply, amount))
            && pay * supply * ONE <= amount * held * ONE + pay * held
  {
    if amount != 0 { BurnAgainstShare(held, supply, amount, Quoted(held, supply, amount)); }
  }

  /** A burn keeps the LSD behind the remaining tokens exactly when it is fair, and lowers the cross
      product by no more than payout times holding. */
  lemma BurnKeepsShareExactly(w: World, info: Info, spendable: nat, msg: ExecuteMsg, w': World)
    requires w.c.token.Valid() && 0 < w.held && 0 < w.c.token.supply && IsBurn(msg)
    requires Transact(w, info, spendable, msg) == Ok(w')
    ensures var held, supply, amount := w.held, w.c.token.supply, Burned(w, info, msg);
            && (w'.held * supply >= held * w'.c.token.supply <==> Fair(held, supply, amount))
            && w'.held * supply * ONE + Quoted(held, supply, amount) * held >= held * w'.c.token.supply * ONE
  {
    var held, supply, amount := w.held, w.c.token.supply, Burned(w, info, msg);
    var pay := Quoted(held, supply, amount);
    BurnTerms(w, info, spendable, msg, w');
    CrossAfterBurn(held, supply, amount, pay);
    FairCross(held, supply, amount);
  }

  /** What a burn can take from the LSD behind one remaining token: nothing when it is fair. */
  function Loss(held: nat, supply: nat, amount: nat): real
    requires 0 < held
  {
    if supply <= amount || Fair(held, supply, amount) then 0.0
    else (Quoted(held, supply, amount) * held) as real / (supply * (supply - amount) * ONE) as real
  }

  lemma LossIsNonNegative(held: nat, supply: nat, amount: nat)
    requires 0 < held
    ensures Loss(held, supply, amount) >= 0.0
  {
    if amount < supply { assert supply * (supply - amount) * ONE > 0; }
  }

  /** A shortfall of the cross product within payout times holding, and none when the burn is fair, is a
      shortfall of the share within the loss. */
  lemma LossCovers(held: nat, supply: nat, amount: nat, held1: nat)
    requires 0 < held && amount < supply
    requires Fair(held, supply, amount) ==> held1 * supply >= held * (supply - amount)
    requires held1 * supply * ONE + Quoted(held, supply, amount) * held >= held * (supply - amount) * ONE
    ensures Share(held1, supply - amount) >= Share(held, supply) - Loss(held, supply, amount)
  {
    if Fair(held, supply, amount) {
      ShareOrder(held, supply, held1, supply - amount);
    } else {
      ShortfallOfShare(held, supply, held1, supply - amount, Quoted(held, supply, amount) * held);
    }
  }

  // ---------- one event ----------

  function BurnLoss(w: World, e: Event): real {
    if e.Call? && IsBurn(e.msg) && Transact(w, e.info, e.spendable, e.msg).Ok? && 0 < w.held
    then Loss(w.held, w.c.token.supply, Burned(w, e.info, e.msg))
    else 0.0
  }

  predicate IsDecompound(e: Event) {
    e.Call? && e.msg.Decompound?
  }

  lemma MintCross(held: nat, supply: nat, amount: nat, cost: nat)
    requires amount * held <= cost * supply
    ensures (held + cost) * supply >= held * (supply + amount)
  {}

  lemma MintKeepsShare(w: World, info: Info, spendable: nat, msg: ExecuteMsg, w': World)
    requires w.c.token.Valid() && 0 < w.held && 0 < w.c.token.supply && IsMint(msg)
    requires Transact(w, info, spendable, msg) == Ok(w')
    ensures w'.held * w.c.token.supply >= w.held * w'.c.token.supply
  {
    MintTerms(w, info, spendable, msg, w');
    MintCross(w.held, w.c.token.supply, w'.c.token.supply - w.c.token.supply, w'.held - w.held);
  }

  lemma BurnLosesAtMost(w: World, info: Info, spendable: nat, msg: ExecuteMsg, w': World)
    requires w.c.token.Valid() && 0 < w.held && 0 < w.c.token.supply && IsBurn(msg)
    requires Transact(w, info, spendable, msg) == Ok(w') && 0 < w'.c.token.supply
    ensures Share(w'.held, w'.c.token.supply) >=
            Share(w.held, w.c.token.supply) - Loss(w.held, w.c.token.supply, Burned(w, info, msg))
  {
    BurnTerms(w, info, spendable, msg, w');
    BurnKeepsShareExactly(w, info, spendable, msg, w');
    LossCovers(w.held, w.c.token.supply, Burned(w, info, msg), w'.held);
  }

  /** A burn of the event is fair. */
  predicate FairEvent(w: World, e: Event) {
    e.Call? && IsBurn(e.msg) && Transact(w, e.info, e.spendable, e.msg).Ok? && 0 < w.held && 0 < w.c.token.supply ==>
      Fair(w.held, w.c.token.supply, Burned(w, e.info, e.msg))
  }

  lemma OtherCallsKeepShare(w: World, info: Info, spendable: nat, msg: ExecuteMsg, w': World)
    requires w.c.token.Valid() && !msg.Decompound? && !IsMint(msg) && !IsBurn(msg)
    requires Transact(w, info, spendable, msg) == Ok(w')
    ensures w'.held == w.held && w'.c.token.supply == w.c.token.supply
  {
    HandlerKeepsToken(w.c, w.View(), info, msg);
  }

  lemma CallKeepsShareExactly(w: World, info: Info, spendable: nat, msg: ExecuteMsg, w': World)
    requires w.c.token.Valid() && 0 < w.held && 0 < w.c.token.supply && !msg.Decompound?
    requires Transact(w, info, spendable, msg) == Ok(w')
    ensures w'.held * w.c.token.supply >= w.held * w'.c.token.supply <==>
              (IsBurn(msg) ==> Fair(w.held, w.c.token.supply, Burned(w, info, msg)))
  {
    if IsMint(msg) {
      MintKeepsShare(w, info, spendable, msg, w');
    } else if IsBurn(msg) {
      BurnKeepsShareExactly(w, info, spendable, msg, w');
    } else {
      OtherCallsKeepShare(w, info, spendable, msg, w');
    }
  }

  lemma NoLessHeld(held: nat, supply: nat, held1: nat, supply1: nat)
    requires held == 0 || (held <= held1 && supply1 == supply)
    ensures held1 * supply >= held * supply1
  {
    if held != 0 { MulLe(held, held1, supply); }
  }

  lemma EnvironmentAddsLsd(w: World, e: Event)
    requires e.Call? ==> Transact(w, e.info, e.spendable, e.msg).Err?
    ensures Step(w, e).held >= w.held && Step(w, e).c == w.c
  {}

  /** An event other than a decompound keeps the LSD behind one token exactly when its burn, if it is one,
      is fair. */
  lemma EventKeepsShareExactly(w: World, e: Event)
    requires w.c.token.Valid() && 0 < w.c.token.supply && !IsDecompound(e)
    ensures Step(w, e).held * w.c.token.supply >= w.held * Step(w, e).c.token.supply <==> FairEvent(w, e)
  {
    var w' := Step(w, e);
    if w.held == 0 {
      NoLessHeld(w.held, w.c.token.supply, w'.held, w'.c.token.supply);
    } else if e.Call? && Transact(w, e.info, e.spendable, e.msg) == Ok(w') {
      CallKeepsShareExactly(w, e.info, e.spendable, e.msg, w');
    } else {
      EnvironmentAddsLsd(w, e);
      NoLessHeld(w.held, w.c.token.supply, w'.held, w'.c.token.supply);
    }
  }

  /** If any tokens are left, the LSD behind one of them has fallen by no more than the loss. */
  predicate LosesAtMost(w: World, w': World, loss: real)
    requires 0 < w.c.token.supply
  {
    w'.c.token.supply == 0 || Share(w'.held, w'.c.token.supply) >= Share(w.held, w.c.token.supply) - loss
  }

  /** An event other than a decompound never takes more than the loss of its burn. */
  lemma EventLosesAtMost(w: World, e: Event)
    requires w.c.token.Valid() && 0 < w.c.token.supply && !IsDecompound(e)
    ensures BurnLoss(w, e) >= 0.0
    ensures LosesAtMost(w, Step(w, e), BurnLoss(w, e))
  {
    if e.Call? && 0 < w.held { LossIsNonNegative(w.held, w.c.token.supply, Burned(w, e.info, e.msg)); }
    if Step(w, e).c.token.supply == 0 {
    } else if e.Call? && IsBurn(e.msg) && Transact(w, e.info, e.spendable, e.msg).Ok? && 0 < w.held {
      BurnLosesAtMost(w, e.info, e.spendable, e.msg, Step(w, e));
    } else {
      EventKeepsShareExactly(w, e);
      ShareOrder(w.held, w.c.token.supply, Step(w, e).held, Step(w, e).c.token.supply);
    }
  }

  // ---------- whole runs ----------

  /** A run without decompounds that never empties the supply. */
  predicate Trading(w: World, events: seq<Event>)
    decreases |events|
  {
    w.c.token.supply > 0 &&
    (events == [] || (!IsDecompound(events[0]) && Trading(Step(w, events[0]), events[1..])))
  }

  function Losses(w: World, events: seq<Event>): real
    decreases |events|
  {
    if events == [] then 0.0 else BurnLoss(w, events[0]) + Losses(Step(w, events[0]), events[1..])
  }

  /** Over any run of trades the LSD behind one token falls by no more than the losses of its burns. */
  lemma {:induction false} TradingDilutesByLosses(w: World, events: seq<Event>)
    requires w.c.token.Valid() && Trading(w, events)
    ensures Run(w, events).c.token.supply > 0
    ensures var w' := Run(w, events);
            Share(w'.held, w'.c.token.supply) >= Share(w.held, w.c.token.supply) - Losses(w, events)
    decreases |events|
  {
    if events == [] {
    } else {
      EventKeepsToken(w, events[0]);
      EventLosesAtMost(w, events[0]);
      TradingDilutesByLosses(Step(w, events[0]), events[1..]);
    }
  }

  /** Every burn of the run is fair when it is made. */
  predicate AllFair(w: World, events: seq<Event>)
    decreases |events|
  {
    events == [] || (FairEvent(w, events[0]) && AllFair(Step(w, events[0]), events[1..]))
  }

  /** No event of the run lowers the LSD behind one token. */
  predicate NeverDiluted(w: World, events: seq<Event>)
    decreases |events|
  {
    events == [] ||
    (var w1 := Step(w, events[0]);
     w1.held * w.c.token.supply >= w.held * w1.c.token.supply && NeverDiluted(w1, events[1..]))
  }

  /** A run of trades never lowers the LSD behind one token exactly when all its burns are fair. */
  lemma {:induction false} TradingNeverDilutes(w: World, events: seq<Event>)
    requires w.c.token.Valid() && Trading(w, events)
    ensures NeverDiluted(w, events) <==> AllFair(w, events)
    decreases |events|
  {
    if events == [] {
    } else {
      EventKeepsToken(w, events[0]);
      EventKeepsShareExactly(w, events[0]);
      TradingNeverDilutes(Step(w, events[0]), events[1..]);
    }
  }
}
