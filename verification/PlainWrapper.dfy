/** The contract without a limit, in the form of its source: stored fields updated by the handlers,
    and decimal arithmetic that can abort. Every handler is proved to answer and to change the
    storage as PlainSpec says; a failing handler leaves the storage unchanged. */
module PlainWrapper {
  import opened FixedPoint
  import opened Cw20
  import opened Lsd
  import opened Pricing
  import opened Querier
  import Spec = PlainSpec

  class Wrapper {
    var token: Token
    var hub: Addr
    var lsd: LsdConfig

    ghost function Storage(): Spec.Storage
      reads this
    {
      Spec.Storage(token, hub, lsd)
    }

    /** A handler's response and the storage it leaves are those of the specification. */
    ghost predicate Answers(r: Result<Transfer>, before: Spec.Storage, expected: Result<Spec.Answer>)
      reads this
    {
      match expected
      case Ok(answer) => r == Ok(answer.transfer) && Storage() == answer.storage
      case Err(error) => r == Err(error) && Storage() == before
    }

    constructor (token: Token, hub: Addr, lsd: LsdConfig)
      ensures Storage() == Spec.Storage(token, hub, lsd)
    {
      this.token, this.hub, this.lsd := token, hub, lsd;
    }

    static method Instantiate(coins: seq<Cw20Coin>, hub: Addr, lsd: LsdConfig) returns (r: Result<Wrapper>)
      ensures match Spec.Instantiate(coins, hub, lsd)
              case Ok(c) => r.Ok? && fresh(r.value) && r.value.Storage() == c
              case Err(error) => r == Err(error)
    {
      var token :- Create(coins);
      var wrapper := new Wrapper(token, hub, lsd);
      r := Ok(wrapper);
    }

    method ComputeAccruedRewards(env: Env) returns (r: Result<Rewards>)
      ensures r == Spec.Accrued(env.held, token.supply, env.rate)
    {
      var state := new WrapperState();
      var gross :- ComputeGrossRewards(env, token.supply, state);
      var lunaRewards, rewardsToDecompound := gross.luna, gross.lsd;
      if rewardsToDecompound > 0 {
        rewardsToDecompound := rewardsToDecompound - 1;
        lunaRewards :- Fit(lunaRewards - Truncate(state.lsdExchangeRate));
      }
      r := Ok(Rewards(lunaRewards, rewardsToDecompound));
    }

    method BeforeBurn(env: Env, info: Info, amount: nat) returns (r: Result<Transfer>)
      ensures BurnPay(amount, env.rate).Ok? ==> r == Ok(Push(info.sender, BurnPay(amount, env.rate).value))
      ensures BurnPay(amount, env.rate).Err? ==> r == Err(Panic)
    {
      var decimal :- FromRatio(amount, 1);
      var lsdAmount :- DivDecimal(decimal, env.rate);
      PricedAmount(amount, env.rate);
      r := Ok(SendFunds(Truncate(lsdAmount), info.sender));
    }

    method ExecuteBurn(env: Env, info: Info, amount: nat) returns (r: Result<Transfer>)
      modifies this
      ensures Answers(r, old(Storage()), Spec.BurnOp(old(Storage()), env, info, amount))
    {
      var transfer :- BeforeBurn(env, info, amount);
      token :- token.Burn(info.sender, amount);
      r := Ok(transfer);
    }

    method ExecuteBurnAll(env: Env, info: Info) returns (r: Result<Transfer>)
      modifies this
      ensures Answers(r, old(Storage()), Spec.Execute(old(Storage()), env, info, BurnAll))
    {
      var amount := token.BalanceOf(info.sender);
      if amount == 0 {
        return Ok(Nothing);
      }
      r := ExecuteBurn(env, info, amount);
    }

    method ExecuteMint(env: Env, info: Info, recipient: Addr, amount: nat) returns (r: Result<Transfer>)
      modifies this
      ensures Answers(r, old(Storage()), Spec.MintOp(old(Storage()), env, info, recipient, amount))
    {
      var decimal :- FromRatio(amount, 1);
      var quotient :- DivDecimal(decimal, env.rate);
      var sendLsdAmount :- Fit(quotient + ONE);
      MintRounding(amount, env.rate);
      var transfer :- DepositFunds(lsd, info, Truncate(sendLsdAmount));
      token :- token.Mint(recipient, amount);
      r := Ok(transfer);
    }

    method ExecuteMintWith(env: Env, info: Info, recipient: Addr, lsdAmount: nat) returns (r: Result<Transfer>)
      modifies this
      ensures Answers(r, old(Storage()), Spec.MintWithOp(old(Storage()), env, info, recipient, lsdAmount))
    {
      var decimal :- FromRatio(lsdAmount, 1);
      FloorCancel(lsdAmount * env.rate, 1, ONE);
      assert decimal * env.rate == lsdAmount * env.rate * ONE;
      var mintAmount :- MulDecimal(decimal, env.rate);
      var transfer :- DepositFunds(lsd, info, lsdAmount);
      token :- token.Mint(recipient, Truncate(mintAmount));
      r := Ok(transfer);
    }

    method ExecuteBurnFrom(env: Env, info: Info, owner: Addr, amount: nat) returns (r: Result<Transfer>)
      modifies this
      ensures Answers(r, old(Storage()), Spec.BurnFromOp(old(Storage()), env, info, owner, amount))
    {
      var transfer :- BeforeBurn(env, info, amount);
      token :- token.BurnFrom(info.sender, owner, amount);
      r := Ok(transfer);
    }

    method ExecuteDecompound(env: Env, info: Info, to: Option<Addr>) returns (r: Result<Transfer>)
      ensures Answers(r, Storage(), Spec.DecompoundOp(Storage(), env, info, to))
    {
      if info.sender != hub {
        return Err(Unauthorized);
      }
      var recipient := match to case Some(x) => x case None => info.sender;
      var accrued := ComputeAccruedRewards(env);
      match accrued
      case Err(err) =>
        return if err == NoRewards then Ok(Nothing) else Err(err);
      case Ok(rewards) =>
        return Ok(if rewards.lsd != 0 then SendFunds(rewards.lsd, recipient) else Nothing);
    }

    method Execute(env: Env, info: Info, msg: ExecuteMsg) returns (r: Result<Transfer>)
      modifies this
      ensures Answers(r, old(Storage()), Spec.Execute(old(Storage()), env, info, msg))
    {
      r := Ok(Nothing);
      match msg
      case TransferTokens(recipient, amount) => token :- token.Transfer(info.sender, recipient, amount);
      case Burn(amount) => r := ExecuteBurn(env, info, amount);
      case BurnAll => r := ExecuteBurnAll(env, info);
      case Mint(recipient, amount) => r := ExecuteMint(env, info, recipient, amount);
      case MintWith(recipient, lsdAmount) => r := ExecuteMintWith(env, info, recipient, lsdAmount);
      case IncreaseAllowance(spender, amount) => token :- token.IncreaseAllowance(info.sender, spender, amount);
      case DecreaseAllowance(spender, amount) => token :- token.DecreaseAllowance(info.sender, spender, amount);
      case TransferFrom(owner, recipient, amount) =>
        token :- token.TransferFrom(info.sender, owner, recipient, amount);
      case BurnFrom(owner, amount) => r := ExecuteBurnFrom(env, info, owner, amount);
      case Send(contract, amount) =>
        token :- token.Transfer(info.sender, contract, amount);
        r := Ok(Notify(contract));
      case SendFrom(owner, contract, amount) =>
        token :- token.TransferFrom(info.sender, owner, contract, amount);
        r := Ok(Notify(contract));
      case UpdateMinter => r := Err(Unauthorized);
      case UpdateMarketing => r := Err(Unauthorized);
      case UploadLogo => r := Err(Unauthorized);
      case Decompound(to) => r := ExecuteDecompound(env, info, to);
    }
  }
}
