/** The wrapper token without a limit, as a state machine over integer formulas. */
module PlainSpec {
  import opened FixedPoint
  import opened Cw20
  import opened Lsd
  import opened Pricing

  datatype Storage = Storage(token: Token, hub: Addr, lsd: LsdConfig)

  datatype Answer = Answer(storage: Storage, transfer: Transfer)

  /** The rewards a decompound takes: none to take (NoRewards) when the token is not backed. */
  function Accrued(held: nat, supply: nat, rate: nat): Result<Rewards> {
    var gross :- GrossAccrued(held, supply, rate);
    Trim(gross, rate)
  }

  function Instantiate(coins: seq<Cw20Coin>, hub: Addr, lsd: LsdConfig): Result<Storage> {
    var token :- Create(coins);
    Ok(Storage(token, hub, lsd))
  }

  function BurnOp(c: Storage, env: Env, info: Info, amount: nat): Result<Answer> {
    var pay :- BurnPay(amount, env.rate);
    var token :- c.token.Burn(info.sender, amount);
    Ok(Answer(c.(token := token), Push(info.sender, pay)))
  }

  function BurnFromOp(c: Storage, env: Env, info: Info, owner: Addr, amount: nat): Result<Answer> {
    var pay :- BurnPay(amount, env.rate);
    var token :- c.token.BurnFrom(info.sender, owner, amount);
    Ok(Answer(c.(token := token), Push(info.sender, pay)))
  }

  function MintOp(c: Storage, env: Env, info: Info, recipient: Addr, amount: nat): Result<Answer> {
    var cost :- MintCost(amount, env.rate);
    var deposit :- DepositFunds(c.lsd, info, cost);
    var token :- c.token.Mint(recipient, amount);
    Ok(Answer(c.(token := token), deposit))
  }

  function MintWithOp(c: Storage, env: Env, info: Info, recipient: Addr, lsdAmount: nat): Result<Answer> {
    var amount :- RateYield(lsdAmount, env.rate);
    var deposit :- DepositFunds(c.lsd, info, lsdAmount);
    var token :- c.token.Mint(recipient, amount);
    Ok(Answer(c.(token := token), deposit))
  }

  function DecompoundOp(c: Storage, env: Env, info: Info, to: Option<Addr>): Result<Answer> {
    if info.sender != c.hub then Err(Unauthorized) else
    match Accrued(env.held, c.token.supply, env.rate)
    case Err(NoRewards) => Ok(Answer(c, Nothing))
    case Err(e) => Err(e)
    case Ok(rewards) =>
      var recipient := if to.Some? then to.value else info.sender;
      Ok(Answer(c, if rewards.lsd == 0 then Nothing else Push(recipient, rewards.lsd)))
  }

  function Execute(c: Storage, env: Env, info: Info, msg: ExecuteMsg): Result<Answer> {
    match msg
    case TransferTokens(recipient, amount) =>
      var token :- c.token.Transfer(info.sender, recipient, amount); Ok(Answer(c.(token := token), Nothing))
    case Burn(amount) => BurnOp(c, env, info, amount)
    case BurnAll =>
      if c.token.BalanceOf(info.sender) == 0 then Ok(Answer(c, Nothing))
      else BurnOp(c, env, info, c.token.BalanceOf(info.sender))
    case Mint(recipient, amount) => MintOp(c, env, info, recipient, amount)
    case MintWith(recipient, lsdAmount) => MintWithOp(c, env, info, recipient, lsdAmount)
    case IncreaseAllowance(spender, amount) =>
      var token :- c.token.IncreaseAllowance(info.sender, spender, amount); Ok(Answer(c.(token := token), Nothing))
    case DecreaseAllowance(spender, amount) =>
      var token :- c.token.DecreaseAllowance(info.sender, spender, amount); Ok(Answer(c.(token := token), Nothing))
    case TransferFrom(owner, recipient, amount) =>
      var token :- c.token.TransferFrom(info.sender, owner, recipient, amount); Ok(Answer(c.(token := token), Nothing))
    case BurnFrom(owner, amount) => BurnFromOp(c, env, info, owner, amount)
    case Send(contract, amount) =>
      var token :- c.token.Transfer(info.sender, contract, amount); Ok(Answer(c.(token := token), Notify(contract)))
    case SendFrom(owner, contract, amount) =>
      var token :- c.token.TransferFrom(info.sender, owner, contract, amount);
      Ok(Answer(c.(token := token), Notify(contract)))
    case UpdateMinter => Err(Unauthorized)
    case UpdateMarketing => Err(Unauthorized)
    case UploadLogo => Err(Unauthorized)
    case Decompound(to) => DecompoundOp(c, env, info, to)
  }

  // ---------- the chain around the contract ----------

  datatype World = World(c: Storage, held: nat, rate: nat, now: nat)

  /** The world at instantiation, with the token given its initial balances. */
  function Start(coins: seq<Cw20Coin>, hub: Addr, lsd: LsdConfig, rate: nat, now: nat): Result<World> {
    var c :- Instantiate(coins, hub, lsd);
    Ok(World(c, 0, rate, now))
  }

  /** One call as a transaction: attached coins arrive, the contract runs, its transfer is delivered. */
  function Transact(w: World, info: Info, spendable: nat, msg: ExecuteMsg): Result<World> {
    var before :- Fit(w.held + Attached(w.c.lsd, info.funds));
    var answer :- Execute(w.c, Env(w.rate, before, w.now), info, msg);
    var after :- Deliver(before, spendable, answer.transfer);
    Ok(w.(c := answer.storage, held := after))
  }

  /** A failing event changes nothing. */
  function Step(w: World, e: Event): World {
    match e
    case Call(info, spendable, msg) =>
      (match Transact(w, info, spendable, msg) case Ok(w') => w' case Err(_) => w)
    case SetRate(rate) => if rate <= MAX128 then w.(rate := rate) else w
    case Tick(nanos) => if w.now + nanos <= MAX64 then w.(now := w.now + nanos) else w
    case Donate(amount) => if w.held + amount <= MAX128 then w.(held := w.held + amount) else w
  }

  function Run(w: World, events: seq<Event>): World
    decreases |events|
  {
    if events == [] then w else Run(Step(w, events[0]), events[1..])
  }
}
