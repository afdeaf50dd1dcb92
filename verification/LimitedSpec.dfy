/** The rate-limited wrapper token, as a state machine over integer formulas. */
module LimitedSpec {
  import opened FixedPoint
  import opened Cw20
  import opened Lsd
  import opened Pricing

  const SECONDS_PER_YEAR: nat := 365 * 24 * 60 * 60
  const NANOS_PER_SECOND: nat := 1_000_000_000

  /** What past decompounds have taken: the sum of the rate decreases, the seconds they cover, and the
      block time of the last one in nanoseconds. */
  datatype Ledger = Ledger(ratioSum: nat, totalSeconds: nat, lastDecompound: nat)

  datatype Storage = Storage(token: Token, hub: Addr, maxRatio: Option<nat>, ledger: Ledger)

  datatype Answer = Answer(storage: Storage, transfer: Transfer)

  datatype Taken = Taken(rateDecrease: nat, luna: nat, lsd: nat)

  function Seconds(nanos: nat): nat { nanos / NANOS_PER_SECOND }

  /** The seconds covered by the ledger together with those since its last entry, in 64-bit arithmetic
      that adds before it subtracts. */
  function Period(l: Ledger, now: nat): Result<nat> {
    var sum := l.totalSeconds + Seconds(now);
    if sum > MAX64 || sum < Seconds(l.lastDecompound) then Err(Panic) else Ok(sum - Seconds(l.lastDecompound))
  }

  /** The ratio that a yearly limit allows over a number of seconds. */
  function Cap(maxRatio: nat, seconds: nat): nat {
    maxRatio * (seconds * ONE / SECONDS_PER_YEAR) / ONE
  }

  /** The ratio still allowed at a block time. */
  function MaxRate(maxRatio: nat, l: Ledger, now: nat): Result<nat> {
    var seconds :- Period(l, now);
    var cap :- Fit(Cap(maxRatio, seconds));
    if cap < l.ratioSum then Err(CapExceeded) else Ok(cap - l.ratioSum)
  }

  /** Both rewards limited to a share `m` of what the wrapper holds. */
  function Limit(gross: Rewards, m: nat, held: nat, rate: nat): Result<Rewards> {
    if m * (held * rate) / ONE > MAX128 || m * held / ONE > MAX128 then Err(Panic)
    else Ok(Rewards(Min(gross.luna, m * (held * rate) / (ONE * ONE)), Min(gross.lsd, m * held / ONE)))
  }

  function Limited(c: Storage, gross: Rewards, env: Env): Result<Rewards> {
    match c.maxRatio
    case None => Ok(gross)
    case Some(maxRatio) =>
      var m :- MaxRate(maxRatio, c.ledger, env.now);
      Limit(gross, m, env.held, env.rate)
  }

  /** The rewards a decompound takes, and by how much they lower the worth of the whole holding. */
  function Accrued(c: Storage, env: Env): Result<Taken> {
    var gross :- GrossAccrued(env.held, c.token.supply, env.rate);
    var limited :- Limited(c, gross, env);
    var net :- Trim(limited, env.rate);
    var decrease :- RateDecrease(net.luna, env.held * env.rate);
    Ok(Taken(decrease, net.luna, net.lsd))
  }

  /** The ledger after recording a decompound. */
  function Record(l: Ledger, rateDecrease: nat, now: nat): Result<Ledger> {
    if l.lastDecompound >= now then Err(TooOften) else
    var sum :- Fit(l.ratioSum + rateDecrease);
    var seconds :- Period(l, now);
    Ok(Ledger(sum, seconds, now))
  }

  function DecompoundOp(c: Storage, env: Env, info: Info, to: Option<Addr>): Result<Answer> {
    if info.sender != c.hub then Err(Unauthorized) else
    match Accrued(c, env)
    case Err(NoRewards) => Ok(Answer(c, Nothing))
    case Err(e) => Err(e)
    case Ok(taken) =>
      var ledger :- Record(c.ledger, taken.rateDecrease, env.now);
      var recipient := if to.Some? then to.value else info.sender;
      Ok(Answer(c.(ledger := ledger), if taken.lsd == 0 then Nothing else Push(recipient, taken.lsd)))
  }

  /** The forecast of the worth of one token after a decompound: one is its least value. */
  function Expected(c: Storage, env: Env): Result<nat> {
    var current :- CurrentRate(env.held, c.token.supply, env.rate);
    if !Backed(env.held, c.token.supply, env.rate) || c.maxRatio.None? then Ok(current) else
    if Seconds(env.now) < Seconds(c.ledger.lastDecompound) then Err(Panic) else
    var seconds := c.ledger.totalSeconds + (Seconds(env.now) - Seconds(c.ledger.lastDecompound));
    if seconds > MAX64 then Err(Panic) else
    var sum :- Fit(current + c.ledger.ratioSum);
    var cap :- Fit(Cap(c.maxRatio.value, seconds));
    Ok(if sum < cap + ONE then ONE else sum - cap)
  }

  function BurnQuote(c: Storage, env: Env, amount: nat): Result<nat> {
    var price :- SharePrice(env.held, c.token.supply);
    BurnPay(amount, price)
  }

  function MintQuote(c: Storage, env: Env, amount: nat): Result<nat> {
    var price :- SharePrice(env.held, c.token.supply);
    MintCost(amount, price)
  }

  function YieldQuote(c: Storage, env: Env, lsdAmount: nat): Result<nat> {
    var price :- SharePrice(env.held, c.token.supply);
    ShareYield(lsdAmount, price)
  }

  function Instantiate(coins: seq<Cw20Coin>, hub: Addr, maxRatio: Option<nat>, now: nat): Result<Storage> {
    var token :- Create(coins);
    Ok(Storage(token, hub, maxRatio, Ledger(0, 0, now)))
  }

  function BurnOp(c: Storage, env: Env, info: Info, amount: nat): Result<Answer> {
    var pay :- BurnQuote(c, env, amount);
    var token :- c.token.Burn(info.sender, amount);
    Ok(Answer(c.(token := token), Push(info.sender, pay)))
  }

  function BurnFromOp(c: Storage, env: Env, info: Info, owner: Addr, amount: nat): Result<Answer> {
    var pay :- BurnQuote(c, env, amount);
    var token :- c.token.BurnFrom(info.sender, owner, amount);
    Ok(Answer(c.(token := token), Push(info.sender, pay)))
  }

  function MintOp(c: Storage, env: Env, info: Info, recipient: Addr, amount: nat): Result<Answer> {
    var cost :- MintQuote(c, env, amount);
    var token :- c.token.Mint(recipient, amount);
    Ok(Answer(c.(token := token), Pull(info.sender, cost)))
  }

  function MintWithOp(c: Storage, env: Env, info: Info, recipient: Addr, lsdAmount: nat): Result<Answer> {
    var amount :- YieldQuote(c, env, lsdAmount);
    var token :- c.token.Mint(recipient, amount);
    Ok(Answer(c.(token := token), Pull(info.sender, lsdAmount)))
  }

  function Execute(c: Storage, env: Env, info: Info, msg: ExecuteMsg): Result<Answer> {
    match msg
    case TransferTokens(recipient, amount) =>
      var token :- c.token.Transfer(info.sender, recipient, amount); Ok(Answer(c.(token := token), Nothing))
    case Burn(amount) => BurnOp(c, env, info, amount)
    case BurnAll =>
      if c.token.BalanceOf(info.sender) == 0 then Ok(Answer(c, Nothing))
      else BurnOp(c, env, info, c.token.BalanceOf(info.sender))
    case Mint(recipient, amount) => MintOp(c, env, info, recipient, amount)
    case MintWith(recipient, lsdAmount) => MintWithOp(c, env, info, recipient, lsdAmount)
    case IncreaseAllowance(spender, amount) =>
      var token :- c.token.IncreaseAllowance(info.sender, spender, amount); Ok(Answer(c.(token := token), Nothing))
    case DecreaseAllowance(spender, amount) =>
      var token :- c.token.DecreaseAllowance(info.sender, spender, amount); Ok(Answer(c.(token := token), Nothing))
    case TransferFrom(owner, recipient, amount) =>
      var token :- c.token.TransferFrom(info.sender, owner, recipient, amount); Ok(Answer(c.(token := token), Nothing))
    case BurnFrom(owner, amount) => BurnFromOp(c, env, info, owner, amount)
    case Send(contract, amount) =>
      var token :- c.token.Transfer(info.sender, contract, amount); Ok(Answer(c.(token := token), Notify(contract)))
    case SendFrom(owner, contract, amount) =>
      var token :- c.token.TransferFrom(info.sender, owner, contract, amount);
      Ok(Answer(c.(token := token), Notify(contract)))
    case UpdateMinter => Err(Unauthorized)
    case UpdateMarketing => Err(Unauthorized)
    case UploadLogo => Err(Unauthorized)
    case Decompound(to) => DecompoundOp(c, env, info, to)
  }

  // ---------- the chain around the contract ----------

  datatype World = World(c: Storage, held: nat, rate: nat, now: nat) {
    function View(): Env { Env(rate, held, now) }
  }

  /** The world at instantiation, with the token given its initial balances. */
  function Start(coins: seq<Cw20Coin>, hub: Addr, maxRatio: Option<nat>, rate: nat, now: nat): Result<World> {
    var c :- Instantiate(coins, hub, maxRatio, now);
    Ok(World(c, 0, rate, now))
  }

  /** One call as a transaction: the contract runs, then its transfer is delivered. */
  function Transact(w: World, info: Info, spendable: nat, msg: ExecuteMsg): Result<World> {
    var answer :- Execute(w.c, w.View(), info, msg);
    var after :- Deliver(w.held, spendable, answer.transfer);
    Ok(w.(c := answer.storage, held := after))
  }

  /** A failing event changes nothing. */
  function Step(w: World, e: Event): World {
    match e
    case Call(info, spendable, msg) =>
      (match Transact(w, info, spendable, msg) case Ok(w') => w' case Err(_) => w)
    case SetRate(rate) => if rate <= MAX128 then w.(rate := rate) else w
    case Tick(nanos) => if w.now + nanos <= MAX64 then w.(now := w.now + nanos) else w
    case Donate(amount) => if w.held + amount <= MAX128 then w.(held := w.held + amount) else w
  }

  function Run(w: World, events: seq<Event>): World
    decreases |events|
  {
    if events == [] then w else Run(Step(w, events[0]), events[1..])
  }
}
