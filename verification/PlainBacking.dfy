/** What the tokens of the wrapper without a limit lack to be backed never grows, over any run whose rates do
    not fall. */
module PlainBacking {
  import opened FixedPoint
  import opened Cw20
  import opened Lsd
  import opened Pricing
  import opened PlainSpec
  import opened PlainAccounts
  import opened PlainDecompound
  import opened Cut

  function WorldSurplus(w: World): int {
    Surplus(w.held, w.c.token.supply, w.rate)
  }

  lemma BurnSurplus(held: nat, supply: nat, rate: nat, amount: nat, pay: nat)
    requires amount <= supply && pay <= held && pay * rate <= amount * ONE
    ensures Surplus(held - pay, supply - amount, rate) >= Surplus(held, supply, rate)
  {}

  lemma MintSurplus(held: nat, after: nat, supply: nat, rate: nat, amount: nat, cost: nat)
    requires after >= held + cost && cost * rate >= amount * ONE
    ensures Surplus(after, supply + amount, rate) >= Surplus(held, supply, rate)
  {}

  lemma BurnCallSurplus(w: World, before: nat, who: Addr, token: Token, amount: nat, w': World)
    requires token.Valid() && token.supply == w.c.token.supply && before >= w.held
    requires token.Burn(who, amount) == Ok(w'.c.token) && w'.rate == w.rate
    requires BurnPay(amount, w.rate).Ok? && before - BurnPay(amount, w.rate).value == w'.held
    ensures WorldSurplus(w') >= WorldSurplus(w)
  {
    BurnDestroys(token, who, amount);
    FairPrice(amount, w.rate);
    MulLe(w.held, before, w.rate);
    BurnSurplus(before, token.supply, w.rate, amount, BurnPay(amount, w.rate).value);
  }

  lemma MintCallSurplus(w: World, info: Info, spendable: nat, msg: ExecuteMsg, w': World)
    requires w.c.token.Valid() && IsMint(msg) && Transact(w, info, spendable, msg) == Ok(w')
    ensures WorldSurplus(w') >= WorldSurplus(w)
  {
    match msg
    case Mint(recipient, amount) =>
      var cost := MintCost(amount, w.rate).value;
      FairPrice(amount, w.rate);
      DepositArrives(w.c.lsd, info, cost, w.held, spendable);
      MintCreates(w.c.token, recipient, amount);
      MintSurplus(w.held, w'.held, w.c.token.supply, w.rate, amount, cost);
    case MintWith(recipient, lsdAmount) =>
      var amount := RateYield(lsdAmount, w.rate).value;
      FairYield(lsdAmount, w.rate);
      DepositArrives(w.c.lsd, info, lsdAmount, w.held, spendable);
      MintCreates(w.c.token, recipient, amount);
      MintSurplus(w.held, w'.held, w.c.token.supply, w.rate, amount, lsdAmount);
  }

  /** At a fixed rate no call but a decompound lowers the surplus, even of a token that is not backed. */
  lemma CallKeepsSurplus(w: World, info: Info, spendable: nat, msg: ExecuteMsg, w': World)
    requires w.c.token.Valid() && !msg.Decompound?
    requires Transact(w, info, spendable, msg) == Ok(w')
    ensures WorldSurplus(w') >= WorldSurplus(w)
  {
    var before := w.held + Attached(w.c.lsd, info.funds);
    var env := Env(w.rate, before, w.now);
    HandlerKeepsToken(w.c, env, info, msg);
    MulLe(w.held, before, w.rate);
    match msg
    case Burn(amount) => BurnCallSurplus(w, before, info.sender, w.c.token, amount, w');
    case BurnAll =>
      if w.c.token.BalanceOf(info.sender) != 0 {
        BurnCallSurplus(w, before, info.sender, w.c.token, w.c.token.BalanceOf(info.sender), w');
      }
    case BurnFrom(owner, amount) =>
      BurnCallSurplus(w, before, owner, w.c.token.DeductAllowance(owner, info.sender, amount).value, amount, w');
    case Mint(_, _) => MintCallSurplus(w, info, spendable, msg, w');
    case MintWith(_, _) => MintCallSurplus(w, info, spendable, msg, w');
    case _ =>
  }

  // ---------- whole runs ----------

  ghost predicate Sound(w: World) {
    w.c.token.Valid() && Backed(w.held, w.c.token.supply, w.rate)
  }

  lemma SurplusFollowsRate(held: nat, supply: nat, rate: nat, rate1: nat)
    requires rate <= rate1
    ensures Surplus(held, supply, rate1) >= Surplus(held, supply, rate)
  {
    MulLe(rate, rate1, held);
  }

  /** What a token lacks to be backed. */
  function Deficit(w: World): nat {
    if WorldSurplus(w) < 0 then -WorldSurplus(w) else 0
  }

  lemma DecompoundAddsNoDeficit(w: World, info: Info, spendable: nat, to: Option<Addr>, w': World)
    requires w.c.token.Valid() && Transact(w, info, spendable, Decompound(to)) == Ok(w')
    ensures Deficit(w') <= Deficit(w)
  {
    DecompoundTakes(w, info, spendable, to, w');
    MulLe(w.held, w.held + Attached(w.c.lsd, info.funds), w.rate);
  }

  lemma StepAddsNoDeficit(w: World, e: Event)
    requires w.c.token.Valid() && (e.SetRate? ==> w.rate <= e.rate)
    ensures Step(w, e).c.token.Valid() && Deficit(Step(w, e)) <= Deficit(w)
    ensures Step(w, e).c.hub == w.c.hub && Step(w, e).c.lsd == w.c.lsd
  {
    match e
    case SetRate(r) => SurplusFollowsRate(w.held, w.c.token.supply, w.rate, r);
    case Donate(amount) => MulLe(w.held, w.held + amount, w.rate);
    case Tick(_) =>
    case Call(info, spendable, msg) =>
      if Transact(w, info, spendable, msg).Ok? {
        HandlerKeepsToken(w.c, Env(w.rate, w.held + Attached(w.c.lsd, info.funds), w.now), info, msg);
        if msg.Decompound? {
          DecompoundAddsNoDeficit(w, info, spendable, msg.to, Step(w, e));
        } else {
          CallKeepsSurplus(w, info, spendable, msg, Step(w, e));
        }
      }
  }

  /** Whatever calls, donations, clock ticks and rate rises follow in whatever order, a token never comes
      to lack more than it lacks now; in particular a backed token stays backed. */
  lemma {:induction false} RunKeepsBacking(w: World, events: seq<Event>)
    requires w.c.token.Valid() && RatesRise(w.rate, events)
    ensures Run(w, events).c.token.Valid() && Deficit(Run(w, events)) <= Deficit(w)
    ensures Sound(w) ==> Sound(Run(w, events))
    ensures Run(w, events).c.hub == w.c.hub && Run(w, events).c.lsd == w.c.lsd
    decreases |events|
  {
    if events == [] {
    } else {
      StepAddsNoDeficit(w, events[0]);
      RunKeepsBacking(Step(w, events[0]), events[1..]);
    }
  }

  /** From instantiation on a token lacks at most one underlying token for each token given out then, and
      is backed throughout when none were. */
  lemma ReachableIsBacked(
    coins: seq<Cw20Coin>, hub: Addr, lsd: LsdConfig, rate: nat, now: nat, events: seq<Event>, w: World)
    requires Start(coins, hub, lsd, rate, now) == Ok(w) && RatesRise(rate, events)
    ensures Deficit(Run(w, events)) <= Issued(coins) * ONE
    ensures Sound(w) <==> Issued(coins) == 0
    ensures Issued(coins) == 0 ==> Sound(Run(w, events))
    ensures Run(w, events).c.hub == hub && Run(w, events).c.lsd == lsd
  {
    CreateHolds(coins);
    RunKeepsBacking(w, events);
  }
}
