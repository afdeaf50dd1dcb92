/** The liquid staking derivative (LSD) a wrapper holds, and what a call to a wrapper looks like.
    The contracts never move LSD themselves: a call answers with at most one message, which the
    chain carries out afterwards, reverting the whole call when it cannot. */
module Lsd {
  import opened FixedPoint
  import opened Cw20

  datatype Coin = Coin(denom: string, amount: nat)

  datatype Info = Info(sender: Addr, funds: seq<Coin>)

  /** What a call can query: the LSD rate in atomics, the LSD the wrapper holds, the block time in
      nanoseconds. */
  datatype Env = Env(rate: nat, held: nat, now: nat)

  /** The LSD is either a native coin, attached to the call, or a CW20 token, pulled from the sender. */
  datatype LsdConfig = BankCoin(denom: string) | Cw20Lsd

  datatype Transfer = Nothing | Pull(from: Addr, amount: nat) | Push(to: Addr, amount: nat) | Notify(contract: Addr)

  datatype ExecuteMsg =
    | TransferTokens(recipient: Addr, amount: nat)
    | Burn(amount: nat)
    | BurnAll
    | Mint(recipient: Addr, amount: nat)
    | MintWith(recipient: Addr, lsdAmount: nat)
    | IncreaseAllowance(spender: Addr, amount: nat)
    | DecreaseAllowance(spender: Addr, amount: nat)
    | TransferFrom(owner: Addr, recipient: Addr, amount: nat)
    | BurnFrom(owner: Addr, amount: nat)
    | Send(contract: Addr, amount: nat)
    | SendFrom(owner: Addr, contract: Addr, amount: nat)
    | UpdateMinter
    | UpdateMarketing
    | UploadLogo
    | Decompound(to: Option<Addr>)

  /** A call, or the environment moving the LSD rate, moving the clock, or sending LSD to the wrapper
      outside any call. */
  datatype Event =
    | Call(info: Info, spendable: nat, msg: ExecuteMsg)
    | SetRate(rate: nat)
    | Tick(nanos: nat)
    | Donate(amount: nat)

  /** No event of the run lowers the LSD rate. */
  predicate RatesRise(rate: nat, events: seq<Event>)
    decreases |events|
  {
    events == [] ||
    match events[0]
    case SetRate(r) => rate <= r <= MAX128 && RatesRise(r, events[1..])
    case _ => RatesRise(rate, events[1..])
  }

  /** A native coin must come as the only attached coin and cover the required amount; the excess
      stays with the wrapper. A CW20 token is pulled for exactly the required amount. */
  function DepositFunds(config: LsdConfig, info: Info, amount: nat): Result<Transfer> {
    match config
    case BankCoin(denom) =>
      if |info.funds| != 1 || info.funds[0].denom != denom || info.funds[0].amount < amount
      then Err(WrongFunds)
      else Ok(Nothing)
    case Cw20Lsd => Ok(Pull(info.sender, amount))
  }

  function SendFunds(amount: nat, to: Addr): Transfer {
    Push(to, amount)
  }

  /** The LSD that reaches the wrapper together with the call, before it runs. */
  function Attached(config: LsdConfig, funds: seq<Coin>): nat {
    if config.Cw20Lsd? || funds == [] then 0
    else (if funds[0].denom == config.denom then funds[0].amount else 0) + Attached(config, funds[1..])
  }

  /** Attached coins add up: each of the LSD's denomination counts in full, any other not at all. */
  lemma {:induction false} AttachedAdds(config: LsdConfig, coins: seq<Coin>, more: seq<Coin>)
    ensures Attached(config, coins + more) == Attached(config, coins) + Attached(config, more)
    ensures forall coin :: coins == [coin] ==>
              Attached(config, coins) == if config == BankCoin(coin.denom) then coin.amount else 0
  {
    if coins == [] {
      assert coins + more == more;
    } else {
      AttachedAdds(config, coins[1..], more);
      assert (coins + more)[0] == coins[0] && (coins + more)[1..] == coins[1..] + more;
      assert Attached(config, []) == 0;
    }
  }

  /** The LSD held after the transfer of a call, of which the sender lets at most `spendable` be pulled. */
  function Deliver(held: nat, spendable: nat, t: Transfer): Result<nat> {
    match t
    case Nothing => Ok(held)
    case Notify(_) => Ok(held)
    case Pull(_, amount) => if spendable < amount then Err(TransferFailed) else Fit(held + amount)
    case Push(_, amount) => if held < amount then Err(TransferFailed) else Ok(held - amount)
  }

  /** Whatever the kind of LSD, an accepted deposit of `amount` raises the LSD held by at least that
      much, and by exactly that much when it is pulled. */
  lemma DepositArrives(config: LsdConfig, info: Info, amount: nat, held: nat, spendable: nat)
    requires DepositFunds(config, info, amount).Ok?
    requires var before := held + Attached(config, info.funds);
             Deliver(before, spendable, DepositFunds(config, info, amount).value).Ok?
    ensures var before := held + Attached(config, info.funds);
            var after := Deliver(before, spendable, DepositFunds(config, info, amount).value).value;
            after >= held + amount && (config.Cw20Lsd? ==> after == held + amount)
  {}

  /** The most LSD that a deposit may ask of a call: the one attached coin, if it is the LSD and fits, or
      what the sender lets be pulled and fits. */
  function Acceptable(config: LsdConfig, info: Info, spendable: nat, held: nat): Option<nat> {
    match config
    case BankCoin(denom) =>
      if |info.funds| == 1 && info.funds[0].denom == denom && held + info.funds[0].amount <= MAX128
      then Some(info.funds[0].amount)
      else None
    case Cw20Lsd => if held <= MAX128 then Some(Min(spendable, MAX128 - held)) else None
  }

  /** A deposit is accepted and arrives exactly when it asks for no more than that, a coin of just the
      amount included; then all of the coin, or exactly the pulled amount, is held. */
  lemma DepositExactly(config: LsdConfig, info: Info, amount: nat, held: nat, spendable: nat)
    ensures var before := held + Attached(config, info.funds);
            var most := Acceptable(config, info, spendable, held);
            var deposit := DepositFunds(config, info, amount);
            && (before <= MAX128 && deposit.Ok? && Deliver(before, spendable, deposit.value).Ok? <==>
                  most.Some? && amount <= most.value)
            && (most.Some? && amount <= most.value ==>
                  Deliver(before, spendable, deposit.value) ==
                  Ok(held + if config.Cw20Lsd? then amount else most.value))
  {
    if config.BankCoin? && |info.funds| == 1 {
      assert info.funds[1..] == [];
      assert Attached(config, info.funds[1..]) == 0;
    }
  }

  /** What a message does to the token when it succeeds; a mint-with creates the `minted` tokens. The
      token's minter is the wrapper itself and nobody is set to manage its marketing, so nobody else is
      authorized to change either. */
  function TokenAfter(t: Token, sender: Addr, msg: ExecuteMsg, minted: nat): Result<Token> {
    match msg
    case TransferTokens(recipient, amount) => t.Transfer(sender, recipient, amount)
    case Burn(amount) => t.Burn(sender, amount)
    case BurnAll => if t.BalanceOf(sender) == 0 then Ok(t) else t.Burn(sender, t.BalanceOf(sender))
    case Mint(recipient, amount) => t.Mint(recipient, amount)
    case MintWith(recipient, _) => t.Mint(recipient, minted)
    case IncreaseAllowance(spender, amount) => t.IncreaseAllowance(sender, spender, amount)
    case DecreaseAllowance(spender, amount) => t.DecreaseAllowance(sender, spender, amount)
    case TransferFrom(owner, recipient, amount) => t.TransferFrom(sender, owner, recipient, amount)
    case BurnFrom(owner, amount) => t.BurnFrom(sender, owner, amount)
    case Send(contract, amount) => t.Transfer(sender, contract, amount)
    case SendFrom(owner, contract, amount) => t.TransferFrom(sender, owner, contract, amount)
    case UpdateMinter => Err(Unauthorized)
    case UpdateMarketing => Err(Unauthorized)
    case UploadLogo => Err(Unauthorized)
    case Decompound(_) => Ok(t)
  }

  predicate IsMint(msg: ExecuteMsg) { msg.Mint? || msg.MintWith? }

  predicate IsBurn(msg: ExecuteMsg) { msg.Burn? || msg.BurnAll? || msg.BurnFrom? }

  /** Every message keeps the token valid; only mints raise the supply, and only burns lower it. */
  lemma MessagesKeepToken(t: Token, sender: Addr, msg: ExecuteMsg, minted: nat)
    requires t.Valid() && TokenAfter(t, sender, msg, minted).Ok?
    ensures var t' := TokenAfter(t, sender, msg, minted).value;
            && t'.Valid()
            && (IsMint(msg) ==> t'.supply == t.supply + if msg.Mint? then msg.amount else minted)
            && (IsBurn(msg) ==> t'.supply == t.supply - if msg.BurnAll? then t.BalanceOf(sender) else msg.amount)
            && (!IsMint(msg) && !IsBurn(msg) ==> t'.supply == t.supply)
  {
    match msg
    case TransferTokens(recipient, amount) => TransferConserves(t, sender, recipient, amount);
    case Burn(amount) => BurnDestroys(t, sender, amount);
    case BurnAll => BurnDestroys(t, sender, t.BalanceOf(sender));
    case Mint(recipient, amount) => MintCreates(t, recipient, amount);
    case MintWith(recipient, _) => MintCreates(t, recipient, minted);
    case TransferFrom(owner, recipient, amount) =>
      TransferConserves(t.DeductAllowance(owner, sender, amount).value, owner, recipient, amount);
    case BurnFrom(owner, amount) => BurnDestroys(t.DeductAllowance(owner, sender, amount).value, owner, amount);
    case Send(contract, amount) => TransferConserves(t, sender, contract, amount);
    case SendFrom(owner, contract, amount) =>
      TransferConserves(t.DeductAllowance(owner, sender, amount).value, owner, contract, amount);
    case _ =>
  }
}
