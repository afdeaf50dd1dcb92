/** The rate-limited contract, in the form of its source: stored fields updated by the handlers, and
    decimal arithmetic that can abort. Every handler is proved to answer and to change the storage as
    LimitedSpec says; a failing handler leaves the storage unchanged. */
module LimitedWrapper {
  import opened FixedPoint
  import opened Cw20
  import opened Lsd
  import opened Pricing
  import opened Querier
  import Spec = LimitedSpec

  class Wrapper {
    var token: Token
    var hub: Addr
    var maxDecompoundRatio: Option<nat>
    var ratioSum: nat
    var totalSeconds: nat
    var lastDecompound: nat

    ghost function Storage(): Spec.Storage
      reads this
    {
      Spec.Storage(token, hub, maxDecompoundRatio, Spec.Ledger(ratioSum, totalSeconds, lastDecompound))
    }

    /** A handler's response and the storage it leaves are those of the specification. */
    ghost predicate Answers(r: Result<Transfer>, before: Spec.Storage, expected: Result<Spec.Answer>)
      reads this
    {
      match expected
      case Ok(answer) => r == Ok(answer.transfer) && Storage() == answer.storage
      case Err(error) => r == Err(error) && Storage() == before
    }

    constructor (token: Token, hub: Addr, maxRatio: Option<nat>, now: nat)
      ensures Storage() == Spec.Storage(token, hub, maxRatio, Spec.Ledger(0, 0, now))
    {
      this.token, this.hub, this.maxDecompoundRatio := token, hub, maxRatio;
      ratioSum, totalSeconds, lastDecompound := 0, 0, now;
    }

    static method Instantiate(coins: seq<Cw20Coin>, hub: Addr, maxRatio: Option<nat>, env: Env)
      returns (r: Result<Wrapper>)
      ensures match Spec.Instantiate(coins, hub, maxRatio, env.now)
              case Ok(c) => r.Ok? && fresh(r.value) && r.value.Storage() == c
              case Err(error) => r == Err(error)
    {
      var token :- Create(coins);
      var wrapper := new Wrapper(token, hub, maxRatio, env.now);
      r := Ok(wrapper);
    }

    /** The seconds since instantiation that the ledger and the clock account for. */
    method TotalPeriod(env: Env) returns (r: Result<nat>)
      ensures r == Spec.Period(Storage().ledger, env.now)
    {
      var sum := totalSeconds + Spec.Seconds(env.now);
      if sum > MAX64 || sum < Spec.Seconds(lastDecompound) {
        return Err(Panic);
      }
      r := Ok(sum - Spec.Seconds(lastDecompound));
    }

    /** The ratio allowed by the limit over a period. */
    static method AllowedRatio(maxRatio: nat, seconds: nat) returns (r: Result<nat>)
      requires seconds <= MAX64
      ensures r == Fit(Spec.Cap(maxRatio, seconds))
    {
      r := MulDecimal(maxRatio, FromRatio(seconds, Spec.SECONDS_PER_YEAR).value);
    }

    method ComputeAccruedRewards(env: Env) returns (r: Result<Spec.Taken>)
      ensures r == Spec.Accrued(Storage(), env)
    {
      var state := new WrapperState();
      var gross :- ComputeGrossRewards(env, token.supply, state);
      var lunaRewards, rewardsToDecompound := gross.luna, gross.lsd;

      if maxDecompoundRatio.Some? {
        var totalPeriod :- TotalPeriod(env);
        var allowed :- AllowedRatio(maxDecompoundRatio.value, totalPeriod);
        if allowed < ratioSum {
          return Err(CapExceeded);
        }
        var maxRate := allowed - ratioSum;
        var maxLuna :- MulDecimal(maxRate, state.backingLuna);
        var maxLsd :- MulUint(maxRate, state.lsdBalance);
        FloorTwice(maxRate * state.backingLuna, ONE, ONE);
        lunaRewards := Min(lunaRewards, Truncate(maxLuna));
        rewardsToDecompound := Min(rewardsToDecompound, maxLsd);
      }
      assert Spec.Limited(Storage(), gross, env) == Ok(Rewards(lunaRewards, rewardsToDecompound));
      assert lunaRewards <= gross.luna;

      if rewardsToDecompound > 0 {
        rewardsToDecompound := rewardsToDecompound - 1;
        lunaRewards :- Fit(lunaRewards - Truncate(state.lsdExchangeRate));
      }
      DecreaseFits(lunaRewards, state.backingLuna);
      var rateDecrease :- DivDecimal(FromRatio(lunaRewards, 1).value, state.backingLuna);
      r := Ok(Spec.Taken(rateDecrease, lunaRewards, rewardsToDecompound));
    }

    method GetExpectedExchangeRate(env: Env, state: WrapperState) returns (r: Result<nat>)
      modifies state
      ensures r == Spec.Expected(Storage(), env)
    {
      var exchangeRate :- GetCurrentExchangeRate(env, token.supply, state);
      GuardIsExact(env.held, token.supply, env.rate);
      if exchangeRate < ONE {
        return Ok(exchangeRate);
      }
      if maxDecompoundRatio.Some? {
        if Spec.Seconds(env.now) < Spec.Seconds(lastDecompound) {
          return Err(Panic);
        }
        var timeSinceStart := totalSeconds + (Spec.Seconds(env.now) - Spec.Seconds(lastDecompound));
        if timeSinceStart > MAX64 {
          return Err(Panic);
        }
        var sum :- Fit(exchangeRate + ratioSum);
        var allowed :- AllowedRatio(maxDecompoundRatio.value, timeSinceStart);
        var expected := if sum >= allowed then sum - allowed else ONE;
        expected := Max(expected, ONE);
        return Ok(expected);
      }
      r := Ok(exchangeRate);
    }

    method GetLsdWrapperExchangeRate(env: Env) returns (r: Result<nat>)
      ensures r == SharePrice(env.held, token.supply)
    {
      if env.held == 0 || token.supply == 0 {
        return Ok(ONE);
      }
      r := FromRatio(token.supply, env.held);
    }

    method BeforeBurn(env: Env, info: Info, amount: nat) returns (r: Result<Transfer>)
      ensures var quote := Spec.BurnQuote(Storage(), env, amount);
              r == if quote.Ok? then Ok(Push(info.sender, quote.value)) else Err(Panic)
    {
      var price :- GetLsdWrapperExchangeRate(env);
      var decimal :- FromRatio(amount, 1);
      var lsdAmount :- DivDecimal(decimal, price);
      PricedAmount(amount, price);
      r := Ok(SendFunds(Truncate(lsdAmount), info.sender));
    }

    method ExecuteBurn(env: Env, info: Info, amount: nat) returns (r: Result<Transfer>)
      modifies this
      ensures Answers(r, old(Storage()), Spec.BurnOp(old(Storage()), env, info, amount))
    {
      var transfer :- BeforeBurn(env, info, amount);
      token :- token.Burn(info.sender, amount);
      r := Ok(transfer);
    }

    method ExecuteBurnAll(env: Env, info: Info) returns (r: Result<Transfer>)
      modifies this
      ensures Answers(r, old(Storage()), Spec.Execute(old(Storage()), env, info, BurnAll))
    {
      var amount := token.BalanceOf(info.sender);
      if amount == 0 {
        return Ok(Nothing);
      }
      r := ExecuteBurn(env, info, amount);
    }

    method ExecuteMint(env: Env, info: Info, recipient: Addr, amount: nat) returns (r: Result<Transfer>)
      modifies this
      ensures Answers(r, old(Storage()), Spec.MintOp(old(Storage()), env, info, recipient, amount))
    {
      var price :- GetLsdWrapperExchangeRate(env);
      var decimal :- FromRatio(amount, 1);
      var quotient :- DivDecimal(decimal, price);
      var sendLsdAmount :- Fit(quotient + ONE);
      MintRounding(amount, price);
      var transfer := DepositFunds(Cw20Lsd, info, Truncate(sendLsdAmount)).value;
      token :- token.Mint(recipient, amount);
      r := Ok(transfer);
    }

    method ExecuteMintWith(env: Env, info: Info, recipient: Addr, lsdAmount: nat) returns (r: Result<Transfer>)
      modifies this
      ensures Answers(r, old(Storage()), Spec.MintWithOp(old(Storage()), env, info, recipient, lsdAmount))
    {
      var price :- GetLsdWrapperExchangeRate(env);
      var mintAmount :- MulUint(price, lsdAmount);
      assert price * lsdAmount == lsdAmount * price;
      var transfer := DepositFunds(Cw20Lsd, info, lsdAmount).value;
      token :- token.Mint(recipient, mintAmount);
      r := Ok(transfer);
    }

    method ExecuteBurnFrom(env: Env, info: Info, owner: Addr, amount: nat) returns (r: Result<Transfer>)
      modifies this
      ensures Answers(r, old(Storage()), Spec.BurnFromOp(old(Storage()), env, info, owner, amount))
    {
      var transfer :- BeforeBurn(env, info, amount);
      token :- token.BurnFrom(info.sender, owner, amount);
      r := Ok(transfer);
    }

    method ExecuteDecompound(env: Env, info: Info, to: Option<Addr>) returns (r: Result<Transfer>)
      modifies this
      ensures Answers(r, old(Storage()), Spec.DecompoundOp(old(Storage()), env, info, to))
    {
      if info.sender != hub {
        return Err(Unauthorized);
      }
      var recipient := match to case Some(x) => x case None => info.sender;
      var accrued := ComputeAccruedRewards(env);
      match accrued
      case Err(err) =>
        return if err == NoRewards then Ok(Nothing) else Err(err);
      case Ok(rewards) =>
        if lastDecompound >= env.now {
          return Err(TooOften);
        }
        var newSum :- Fit(ratioSum + rewards.rateDecrease);
        var newSeconds :- TotalPeriod(env);
        ratioSum, totalSeconds, lastDecompound := newSum, newSeconds, env.now;
        return Ok(if rewards.lsd != 0 then SendFunds(rewards.lsd, recipient) else Nothing);
    }

    method Execute(env: Env, info: Info, msg: ExecuteMsg) returns (r: Result<Transfer>)
      modifies this
      ensures Answers(r, old(Storage()), Spec.Execute(old(Storage()), env, info, msg))
    {
      r := Ok(Nothing);
      match msg
      case TransferTokens(recipient, amount) => token :- token.Transfer(info.sender, recipient, amount);
      case Burn(amount) => r := ExecuteBurn(env, info, amount);
      case BurnAll => r := ExecuteBurnAll(env, info);
      case Mint(recipient, amount) => r := ExecuteMint(env, info, recipient, amount);
      case MintWith(recipient, lsdAmount) => r := ExecuteMintWith(env, info, recipient, lsdAmount);
      case IncreaseAllowance(spender, amount) => token :- token.IncreaseAllowance(info.sender, spender, amount);
      case DecreaseAllowance(spender, amount) => token :- token.DecreaseAllowance(info.sender, spender, amount);
      case TransferFrom(owner, recipient, amount) =>
        token :- token.TransferFrom(info.sender, owner, recipient, amount);
      case BurnFrom(owner, amount) => r := ExecuteBurnFrom(env, info, owner, amount);
      case Send(contract, amount) =>
        token :- token.Transfer(info.sender, contract, amount);
        r := Ok(Notify(contract));
      case SendFrom(owner, contract, amount) =>
        token :- token.TransferFrom(info.sender, owner, contract, amount);
        r := Ok(Notify(contract));
      case UpdateMinter => r := Err(Unauthorized);
      case UpdateMarketing => r := Err(Unauthorized);
      case UploadLogo => r := Err(Unauthorized);
      case Decompound(to) => r := ExecuteDecompound(env, info, to);
    }
  }
}
