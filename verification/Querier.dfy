/** The exchange-rate query, which is the same in both wrappers. */
module Querier {
  import opened FixedPoint
  import opened Lsd
  import opened Pricing

  /** What the query leaves behind for its callers. */
  class WrapperState {
    var lsdExchangeRate: nat
    var wlsdSupply: nat
    var backingLuna: nat
    var lsdBalance: nat

    constructor () {
      lsdExchangeRate, wlsdSupply, backingLuna, lsdBalance := 0, 0, 0, 0;
    }
  }

  /** The worth of one wrapper token, filling in `state` unless the arithmetic aborts. The product of
      holding and rate is exact, not rounded. */
  method GetCurrentExchangeRate(env: Env, supply: nat, state: WrapperState) returns (r: Result<nat>)
    modifies state
    ensures r == CurrentRate(env.held, supply, env.rate)
    ensures r.Ok? ==>
              && state.lsdExchangeRate == env.rate && state.wlsdSupply == supply
              && state.backingLuna == env.held * env.rate && state.lsdBalance == env.held
    ensures r.Err? ==> unchanged(state)
  {
    var balance :- FromRatio(env.held, 1);
    FloorCancel(env.held * env.rate, 1, ONE);
    assert balance * env.rate == env.held * env.rate * ONE;
    var lunaBackingToken :- MulDecimal(balance, env.rate);
    state.lsdExchangeRate := env.rate;
    state.wlsdSupply := supply;
    state.backingLuna := lunaBackingToken;
    state.lsdBalance := env.held;
    if supply == 0 {
      return Ok(ONE);
    }
    r := Ok(DivUint(lunaBackingToken, supply).value);
  }

  /** The rewards both wrappers start from. */
  method ComputeGrossRewards(env: Env, supply: nat, state: WrapperState) returns (r: Result<Rewards>)
    modifies state
    ensures r == GrossAccrued(env.held, supply, env.rate)
    ensures r.Ok? ==>
              && state.lsdExchangeRate == env.rate && state.wlsdSupply == supply
              && state.backingLuna == env.held * env.rate && state.lsdBalance == env.held
  {
    var current :- GetCurrentExchangeRate(env, supply, state);
    GuardIsExact(env.held, supply, env.rate);
    if current < ONE {
      return Err(NoRewards);
    }
    FloorGe(state.backingLuna, ONE, state.wlsdSupply);
    var lunaRewards := Truncate(state.backingLuna) - state.wlsdSupply;

    if env.rate != 0 { GrossPipeline(env.held, supply, env.rate); }
    var needed :- DivDecimal(FromRatio(state.wlsdSupply, 1).value, state.lsdExchangeRate);
    var rewardsToDecompound := Truncate(FromRatio(state.lsdBalance, 1).value - needed);
    r := Ok(Rewards(lunaRewards, rewardsToDecompound));
  }
}
