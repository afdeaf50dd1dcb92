/** Minting and burning at the floored share price of the rate-limited wrapper: who gains from the
    rounding, and by how much. */
module LimitedShares {
  import opened FixedPoint
  import opened Cw20
  import opened Lsd
  import opened Pricing
  import opened Messages
  import opened LimitedSpec
  import opened LimitedAccounts

  // ---------- one exchange ----------

  lemma CostCross(held: nat, issued: nat, amount: nat, price: nat, most: nat)
    requires 0 < held && price * held <= issued <= price * held + held
    requires most * price <= amount * ONE < (most + 1) * price
    ensures amount * held * ONE < (most + 1) * issued
    ensures most * issued <= amount * held * ONE + most * held
  {
    MulLe(most * price, amount * ONE, held);
    MulLe(amount * ONE + 1, (most + 1) * price, held);
    MulLe(price * held, issued, most + 1);
    MulLe(issued, price * held + held, most);
    assert amount * ONE * held == amount * held * ONE;
    assert (most + 1) * price * held == price * held * (most + 1);
    assert most * price * held == price * held * most;
    assert (price * held + held) * most == price * held * most + most * held;
  }

  lemma CostOfShare(held: nat, supply: nat, amount: nat, price: nat, most: nat)
    requires 0 < held && price * held <= supply * ONE <= price * held + held
    requires most * price <= amount * ONE < (most + 1) * price
    ensures amount * held < (most + 1) * supply
    ensures most * supply * ONE <= amount * held * ONE + most * held
  {
    CostCross(held, supply * ONE, amount, price, most);
    assert most * (supply * ONE) == most * supply * ONE;
    assert (most + 1) * (supply * ONE) == (most + 1) * supply * ONE;
    CancelLt(amount * held, (most + 1) * supply, ONE);
  }

  /** A minted amount costs more LSD than its share of the holding, and less one LSD it costs at most that
      share and what the floor of the price hides. */
  lemma MintAboveShare(held: nat, supply: nat, amount: nat)
    requires 0 < held && 0 < supply && MintCost(amount, supply * ONE / held).Ok?
    ensures var cost := MintCost(amount, supply * ONE / held).value;
            && amount * held < cost * supply
            && (cost - 1) * supply * ONE <= amount * held * ONE + (cost - 1) * held
  {
    var price := supply * ONE / held;
    Floor(supply * ONE, held);
    FairPrice(amount, price);
    CostOfShare(held, supply, amount, price, MintCost(amount, price).value - 1);
  }

  lemma YieldCross(held: nat, issued: nat, lsd: nat, price: nat, gain: nat)
    requires 0 < held && price * held <= issued <= price * held + held
    requires gain * ONE <= lsd * price < gain * ONE + ONE
    ensures gain * held * ONE <= lsd * issued < (gain + 1) * held * ONE + lsd * held
  {
    MulLe(gain * ONE, lsd * price, held);
    MulLe(lsd * price + 1, gain * ONE + ONE, held);
    MulLe(price * held, issued, lsd);
    MulLe(issued, price * held + held, lsd);
    assert lsd * price * held == price * held * lsd;
    assert (lsd * price + 1) * held == price * held * lsd + held;
    assert (price * held + held) * lsd == price * held * lsd + lsd * held;
    assert (gain * ONE + ONE) * held == (gain + 1) * held * ONE;
  }

  lemma YieldOfShare(held: nat, supply: nat, lsd: nat, price: nat, gain: nat)
    requires 0 < held && price * held <= supply * ONE <= price * held + held
    requires gain * ONE <= lsd * price < gain * ONE + ONE
    ensures gain * held <= lsd * supply
    ensures lsd * supply * ONE < (gain + 1) * held * ONE + lsd * held
  {
    YieldCross(held, supply * ONE, lsd, price, gain);
    assert lsd * (supply * ONE) == lsd * supply * ONE;
    CancelLe(gain * held, lsd * supply, ONE);
  }

  /** LSD never mints more than its share of the supply, and misses it by less than one token and what the
      floor of the price hides. */
  lemma YieldWithinShare(held: nat, supply: nat, lsd: nat)
    requires 0 < held && 0 < supply
    ensures var gain := lsd * (supply * ONE / held) / ONE;
            && gain * held <= lsd * supply
            && lsd * supply * ONE < (gain + 1) * held * ONE + lsd * held
  {
    var price := supply * ONE / held;
    FairYield(lsd, price);
    Floor(supply * ONE, held);
    YieldOfShare(held, supply, lsd, price, lsd * price / ONE);
  }

  lemma PayCross(held: nat, supply: nat, amount: nat, pay: nat, price: nat, rest: nat, dust: nat)
    requires supply * ONE == price * held + rest && amount * ONE == pay * price + dust
    ensures pay * supply * ONE - amount * held * ONE == pay * rest - dust * held
  {
    assert pay * supply * ONE == pay * (price * held + rest);
    assert pay * (price * held + rest) == pay * price * held + pay * rest;
    assert amount * held * ONE == (pay * price + dust) * held;
    assert (pay * price + dust) * held == pay * price * held + dust * held;
  }

  lemma PayOfShare(held: nat, supply: nat, amount: nat, pay: nat, price: nat, rest: nat, dust: nat)
    requires supply * ONE == price * held + rest && amount * ONE == pay * price + dust && rest < held
    ensures pay * supply * ONE + pay <= amount * held * ONE + pay * held
    ensures pay * supply <= amount * held <==> pay * rest <= dust * held
    ensures pay * held <= ONE ==> pay * supply <= amount * held
  {
    PayCross(held, supply, amount, pay, price, rest, dust);
    MulLe(rest, held - 1, pay);
    assert (held - 1) * pay == pay * held - pay;
    assert dust * held >= 0;
  }

  /** Dividing by the floored price rounds burns upward: a payout exceeds the share of the burned tokens
      by less than payout * held / ONE, weighed by the supply. It does not exceed it at all exactly when
      the two remainders weigh as stated, and never when payout * held <= ONE. */
  lemma BurnAgainstShare(held: nat, supply: nat, amount: nat, pay: nat)
    requires 0 < held && 0 < supply && BurnPay(amount, supply * ONE / held) == Ok(pay)
    ensures pay * supply * ONE + pay <= amount * held * ONE + pay * held
    ensures pay * supply <= amount * held <==>
              pay * (supply * ONE % held) <= amount * ONE % (supply * ONE / held) * held
    ensures pay * held <= ONE ==> pay * supply <= amount * held
  {
    var price := supply * ONE / held;
    FloorRest(supply * ONE, held);
    FloorRest(amount * ONE, price);
    PayOfShare(held, supply, amount, pay, price, supply * ONE % held, amount * ONE % price);
  }

  // ---------- one transaction ----------

  /** The tokens that a burn message takes off the supply. */
  function Burned(w: World, info: Info, msg: ExecuteMsg): nat {
    if IsBurn(msg) then Moved(w.c.token, info.sender, msg, 0) else 0
  }

  /** What burned tokens are paid at the share price, when it is not zero. */
  function Quoted(held: nat, supply: nat, amount: nat): nat
    requires 0 < held
  {
    var price := supply * ONE / held;
    if price == 0 then 0 else amount * ONE / price
  }

  /** A burn of any kind goes through exactly when the token permits it and the amount can be paid at the
      share price. It pays the most LSD that is worth no more than the burned tokens at that price. */
  lemma BurnExactly(w: World, info: Info, spendable: nat, msg: ExecuteMsg)
    requires w.c.token.Valid() && IsBurn(msg)
    ensures var t, price := Transact(w, info, spendable, msg), SharePrice(w.held, w.c.token.supply);
            var amount := Moved(w.c.token, info.sender, msg, 0);
            && (t.Ok? <==> MayMove(w.c.token, info.sender, msg, 0)
                           && ((msg.BurnAll? && amount == 0) || (price.Ok? && Payable(amount, price.value, w.held))))
            && (t.Ok? ==>
                  var pay := w.held - t.value.held;
                  && t.value == w.(c := w.c.(token := t.value.c.token), held := t.value.held)
                  && t.value.c.token.supply == w.c.token.supply - amount && 0 <= pay
                  && (amount == 0 ==> pay == 0)
                  && (amount != 0 ==> pay * price.value <= amount * ONE < (pay + 1) * price.value))
  {
    var price, amount := SharePrice(w.held, w.c.token.supply), Moved(w.c.token, info.sender, msg, 0);
    MayMoveExactly(w.c.token, info.sender, msg, 0);
    if price.Ok? {
      PayableExactly(amount, price.value, w.held);
      FairPrice(amount, price.value);
    }
    if Spends(msg) { SpendingIsAllowed(w.c.token, info.sender, msg); }
    if MayMove(w.c.token, info.sender, msg, 0) {
      BurnDestroys(w.c.token, Payer(info.sender, msg).value, amount);
    }
  }

  /** The quote is the one number of LSD that a burn at the share price can pay. */
  lemma QuoteIsExact(held: nat, supply: nat, amount: nat, pay: nat)
    requires 0 < held && 0 < supply && 0 <= pay <= held
    requires amount == 0 ==> pay == 0
    requires var price := SharePrice(held, supply);
             amount != 0 ==> price.Ok? && Payable(amount, price.value, held)
                             && pay * price.value <= amount * ONE < (pay + 1) * price.value
    ensures pay == Quoted(held, supply, amount)
    ensures amount != 0 ==> BurnPay(amount, supply * ONE / held) == Ok(pay)
  {
    if amount != 0 {
      var price := supply * ONE / held;
      PayableExactly(amount, price, held);
      FloorGe(amount * ONE, price, pay);
      FloorGe(amount * ONE, price, pay + 1);
    }
  }

  /** A burn takes its tokens off the supply and pays their quote. */
  lemma BurnTerms(w: World, info: Info, spendable: nat, msg: ExecuteMsg, w': World)
    requires w.c.token.Valid() && 0 < w.held && 0 < w.c.token.supply && IsBurn(msg)
    requires Transact(w, info, spendable, msg) == Ok(w')
    ensures var amount, supply := Burned(w, info, msg), w.c.token.supply;
            && amount <= supply && w'.c.token.supply == supply - amount && w'.rate == w.rate
            && Quoted(w.held, supply, amount) <= w.held && w'.held == w.held - Quoted(w.held, supply, amount)
            && (amount != 0 ==> BurnPay(amount, supply * ONE / w.held) == Ok(Quoted(w.held, supply, amount)))
  {
    BurnExactly(w, info, spendable, msg);
    QuoteIsExact(w.held, w.c.token.supply, Burned(w, info, msg), w.held - w'.held);
  }

  /** A mint goes through exactly when the supply fits and the LSD that the sender lets be pulled, and that
      fits, affords it. It creates the amount for the recipient, and pulls the least LSD that is worth more
      than it at the share price. */
  lemma MintExactly(w: World, info: Info, spendable: nat, recipient: Addr, amount: nat)
    requires w.c.token.Valid()
    ensures var t, price := Transact(w, info, spendable, Mint(recipient, amount)), SharePrice(w.held, w.c.token.supply);
            && (t.Ok? <==> w.c.token.supply + amount <= MAX128 && price.Ok? && w.held <= MAX128
                           && Affordable(amount, price.value, Min(spendable, MAX128 - w.held)))
            && (t.Ok? ==>
                  var cost := t.value.held - w.held;
                  && w.c.token.Mint(recipient, amount) == Ok(t.value.c.token)
                  && t.value == w.(c := w.c.(token := t.value.c.token), held := t.value.held)
                  && 0 < cost && (cost - 1) * price.value <= amount * ONE < cost * price.value)
  {
    var price := SharePrice(w.held, w.c.token.supply);
    MintCreates(w.c.token, recipient, amount);
    if price.Ok? {
      FairPrice(amount, price.value);
      if w.held <= MAX128 { AffordableExactly(amount, price.value, Min(spendable, MAX128 - w.held)); }
    }
  }

  lemma YieldQuoteExactly(c: Storage, env: Env, lsd: nat, price: nat)
    requires SharePrice(env.held, c.token.supply) == Ok(price)
    ensures YieldQuote(c, env, lsd) == Fit(lsd * price / ONE)
  {}

  lemma MintWithEffect(w: World, info: Info, spendable: nat, recipient: Addr, lsd: nat, worth: nat)
    requires w.c.token.Valid() && YieldQuote(w.c, w.View(), lsd) == Fit(worth / ONE)
    ensures var t := Transact(w, info, spendable, MintWith(recipient, lsd));
            && (t.Ok? <==> lsd <= spendable && w.held + lsd <= MAX128
                           && worth < (MAX128 - w.c.token.supply + 1) * ONE)
            && (t.Ok? ==>
                  var gain := t.value.c.token.supply - w.c.token.supply;
                  && 0 <= gain && w.c.token.Mint(recipient, gain) == Ok(t.value.c.token)
                  && t.value == w.(c := w.c.(token := t.value.c.token), held := w.held + lsd)
                  && gain * ONE <= worth < (gain + 1) * ONE)
  {
    MintCreates(w.c.token, recipient, worth / ONE);
  }

  /** A mint with LSD goes through exactly when the LSD can be had and fits and the supply fits. It pulls
      that LSD and creates the most tokens that are worth no more at the share price, for the recipient. */
  lemma MintWithExactly(w: World, info: Info, spendable: nat, recipient: Addr, lsd: nat)
    requires w.c.token.Valid()
    ensures var t := Transact(w, info, spendable, MintWith(recipient, lsd));
            var price := SharePrice(w.held, w.c.token.supply);
            && (t.Ok? <==> price.Ok? && lsd <= spendable && w.held + lsd <= MAX128
                           && lsd * price.value < (MAX128 - w.c.token.supply + 1) * ONE)
            && (t.Ok? ==>
                  var gain := t.value.c.token.supply - w.c.token.supply;
                  && 0 <= gain && w.c.token.Mint(recipient, gain) == Ok(t.value.c.token)
                  && t.value == w.(c := w.c.(token := t.value.c.token), held := w.held + lsd)
                  && gain * ONE <= lsd * price.value < (gain + 1) * ONE)
  {
    var price := SharePrice(w.held, w.c.token.supply);
    if price.Ok? {
      YieldQuoteExactly(w.c, w.View(), lsd, price.value);
      MintWithEffect(w, info, spendable, recipient, lsd, lsd * price.value);
    }
  }

  /** On a live wrapper a mint costs more than its share of the holding, and less one LSD at most that share
      and what the floor of the price hides; a mint with LSD creates at most its share of the supply, and
      misses it by less than one token and what the floor hides. */
  lemma MintsWithinShare(w: World, info: Info, spendable: nat, msg: ExecuteMsg, w1: World)
    requires w.c.token.Valid() && 0 < w.held && 0 < w.c.token.supply && IsMint(msg)
    requires Transact(w, info, spendable, msg) == Ok(w1)
    ensures var held, supply := w.held, w.c.token.supply;
            var amount, cost := w1.c.token.supply - supply, w1.held - held;
            && (msg.Mint? ==>
                  && amount == msg.amount && 0 < cost && amount * held < cost * supply
                  && (cost - 1) * supply * ONE <= amount * held * ONE + (cost - 1) * held)
            && (msg.MintWith? ==>
                  && cost == msg.lsdAmount && 0 <= amount && amount * held <= cost * supply
                  && cost * supply * ONE < (amount + 1) * held * ONE + cost * held)
  {
    SharePriceIsFloored(w.held, w.c.token.supply);
    var price := SharePrice(w.held, w.c.token.supply).value;
    if msg.Mint? {
      MintExactly(w, info, spendable, msg.recipient, msg.amount);
      MintCreates(w.c.token, msg.recipient, msg.amount);
      CostOfShare(w.held, w.c.token.supply, msg.amount, price, w1.held - w.held - 1);
    } else {
      MintWithExactly(w, info, spendable, msg.recipient, msg.lsdAmount);
      YieldOfShare(w.held, w.c.token.supply, msg.lsdAmount, price, w1.c.token.supply - w.c.token.supply);
    }
  }

  /** A mint adds tokens to the supply, and LSD worth at least their share to the holding. */
  lemma MintTerms(w: World, info: Info, spendable: nat, msg: ExecuteMsg, w1: World)
    requires w.c.token.Valid() && 0 < w.held && 0 < w.c.token.supply && IsMint(msg)
    requires Transact(w, info, spendable, msg) == Ok(w1)
    ensures var amount, cost := w1.c.token.supply - w.c.token.supply, w1.held - w.held;
            && 0 <= amount && 0 <= cost && amount * w.held <= cost * w.c.token.supply
            && w1.c.token.Valid()
  {
    TransactMovesToken(w, info, spendable, msg, w1);
    MintsWithinShare(w, info, spendable, msg, w1);
  }

  // ---------- round trips ----------

  lemma PayoutAgainstCost(pay: nat, cost: nat, supply: nat, held: nat, worth: nat)
    requires held <= supply * ONE && worth <= cost * supply
    requires pay * supply * ONE + pay <= worth * ONE + pay * held
    ensures pay * held <= supply * ONE ==> pay <= cost
    ensures (cost + 1) * held <= supply * ONE ==> pay <= cost
  {}

  /** Tokens bought at no less than their share and burned at once pay no more than they cost, when the
      cost is small against the price's precision; the payout gives a condition too. */
  lemma RoundTripPays(held: nat, supply: nat, amount: nat, cost: nat, pay: nat)
    requires 0 < held && 0 < supply && amount * held <= cost * supply
    requires BurnPay(amount, supply * ONE / held) == Ok(pay)
    ensures (cost + 1) * held <= supply * ONE ==> pay <= cost
    ensures pay * held <= supply * ONE ==> pay <= cost
  {
    assert held <= supply * ONE by { FloorGe(supply * ONE, held, 1); }
    assert pay * supply * ONE + pay <= amount * held * ONE + pay * held by {
      BurnAgainstShare(held, supply, amount, pay);
    }
    PayoutAgainstCost(pay, cost, supply, held, amount * held);
  }

  /** A mint, by amount or by LSD, and the burn of what it yielded. */
  ghost predicate RoundTrip(
    w: World, info: Info, spendable: nat, msg: ExecuteMsg, w1: World, amount: nat, w2: World)
  {
    && w.c.token.Valid() && IsMint(msg)
    && Transact(w, info, spendable, msg) == Ok(w1)
    && amount == w1.c.token.supply - w.c.token.supply
    && Transact(w1, info, 0, Burn(amount)) == Ok(w2)
  }

  /** The burn pays the amount at the price after the mint, and restores the supply. */
  lemma RoundTripTerms(
    w: World, info: Info, spendable: nat, msg: ExecuteMsg, w1: World, amount: nat, w2: World)
    requires RoundTrip(w, info, spendable, msg, w1, amount, w2)
    ensures w.held <= w1.held && w2.held <= w1.held && w2.c.token.supply == w.c.token.supply
    ensures SharePrice(w1.held, w1.c.token.supply).Ok?
    ensures BurnPay(amount, SharePrice(w1.held, w1.c.token.supply).value) == Ok(w1.held - w2.held)
  {
    var minted := if msg.MintWith? then YieldQuote(w.c, w.View(), msg.lsdAmount).value else 0;
    MessagesKeepToken(w.c.token, info.sender, msg, minted);
    BurnDestroys(w1.c.token, info.sender, amount);
  }

  /** Selling at once what was just bought leaves the wrapper with no less LSD than it had exactly when
      the amount is below the price after the mint times one more than the cost. */
  lemma RoundTripExactly(
    w: World, info: Info, spendable: nat, msg: ExecuteMsg, w1: World, amount: nat, w2: World)
    requires RoundTrip(w, info, spendable, msg, w1, amount, w2)
    ensures w1.held >= w.held && SharePrice(w1.held, w1.c.token.supply).Ok?
    ensures w2.held >= w.held <==>
              amount * ONE < (w1.held - w.held + 1) * SharePrice(w1.held, w1.c.token.supply).value
  {
    RoundTripTerms(w, info, spendable, msg, w1, amount, w2);
    FloorGe(amount * ONE, SharePrice(w1.held, w1.c.token.supply).value, w1.held - w.held + 1);
  }

  lemma SharesAfterMint(held: nat, supply: nat, amount: nat, cost: nat)
    requires amount * held <= cost * supply
    ensures amount * (held + cost) <= cost * (supply + amount)
  {
    assert amount * (held + cost) == amount * held + amount * cost;
    assert cost * (supply + amount) == cost * supply + amount * cost;
  }

  /** With LSD and tokens there before, it does so whenever the cost or the payout is small against the
      price's precision. */
  lemma MintThenBurn(w: World, info: Info, spendable: nat, msg: ExecuteMsg, w1: World, amount: nat, w2: World)
    requires RoundTrip(w, info, spendable, msg, w1, amount, w2)
    requires 0 < w.held && 0 < w.c.token.supply
    ensures w2.c.token.supply == w.c.token.supply
    ensures (w1.held - w.held + 1) * w1.held <= w1.c.token.supply * ONE ==> w2.held >= w.held
    ensures (w1.held - w2.held) * w1.held <= w1.c.token.supply * ONE ==> w2.held >= w.held
  {
    RoundTripTerms(w, info, spendable, msg, w1, amount, w2);
    assert amount * w.held <= (w1.held - w.held) * w.c.token.supply by { MintTerms(w, info, spendable, msg, w1); }
    SharesAfterMint(w.held, w.c.token.supply, amount, w1.held - w.held);
    RoundTripPays(w1.held, w1.c.token.supply, amount, w1.held - w.held, w1.held - w2.held);
  }

  /** LSD held without any tokens belongs to the first to mint: of a hundred units sent to an empty wrapper
      the ten tokens minted here take all, together with their own cost. */
  lemma FirstMinterTakesAll()
    ensures var w := Step(Start([], "hub", None, ONE, 0).value, Donate(100));
            var w1 := Transact(w, Info("a", []), 11, Mint("a", 10));
            && w.held == 100 && w1.Ok? && w1.value.held == 111
            && var w2 := Transact(w1.value, Info("a", []), 0, Burn(10));
               w2.Ok? && w2.value.held == 0
  {
    assert 10 * ONE / 111 == 90_090_090_090_090_090;
    assert 10 * ONE * ONE / 90_090_090_090_090_090 / ONE == 111;
  }

  /** Otherwise a round trip can profit: the eleven tokens minted here cost 733333333333333334 LSD and pay
      785714285714285714, at the expense of the six tokens that were there. */
  lemma RoundTripCanProfit()
    ensures var w := World(Storage(Token(map["b" := 6], map[], 6), "hub", None, Ledger(0, 0, 0)),
                           400_000_000_000_000_000, ONE, 1);
            var w1 := w.(c := w.c.(token := Token(map["b" := 6, "a" := 11], map[], 17)),
                         held := 1_133_333_333_333_333_334);
            var w2 := Transact(w1, Info("a", []), 0, Burn(11));
            && w.c.token.Valid()
            && Transact(w, Info("a", []), MAX128, Mint("a", 11)) == Ok(w1)
            && w2.Ok? && w2.value.held == 347_619_047_619_047_620 < w.held
  {
    var balances: map<Addr, nat> := map["b" := 6];
    SumWithout(balances, "b");
    assert balances - {"b"} == map[];
    assert 6 * ONE / 400_000_000_000_000_000 == 15;
    assert 17 * ONE / 1_133_333_333_333_333_334 == 14;
  }

  // ---------- draining the vault ----------

  /** Burning the whole supply never asks for less than the holding, and asks for exactly that when the
      price's rounding remainder is below the price. */
  lemma DrainPay(held: nat, supply: nat)
    requires 0 < held && held <= supply * ONE
    ensures var price := supply * ONE / held;
            && 0 < price && held <= supply * ONE / price
            && (supply * ONE / price == held <==> supply * ONE % held < price)
            && (held * held <= supply * ONE ==> supply * ONE % held < price)
  {
    var price := supply * ONE / held;
    Floor(supply * ONE, held);
    FloorGe(supply * ONE, held, 1);
    FloorGe(supply * ONE, price, held);
    FloorGe(supply * ONE, price, held + 1);
    assert (held + 1) * price == price * held + price;
    FloorGe(supply * ONE, held, held);
  }

  /** The sole holder can burn everything exactly when that remainder is below the price, and then
      empties the wrapper of LSD and tokens alike. */
  lemma SoleHolderDrains(w: World, who: Addr)
    requires w.c.token.Valid() && 0 < w.held && 0 < w.c.token.supply
    requires w.c.token.BalanceOf(who) == w.c.token.supply
    requires BurnQuote(w.c, w.View(), w.c.token.supply).Ok?
    ensures var t := Transact(w, Info(who, []), 0, BurnAll);
            && (t.Ok? <==> w.c.token.supply * ONE % w.held < w.c.token.supply * ONE / w.held)
            && (t.Ok? ==> t.value.held == 0 && t.value.c.token.supply == 0)
            && (w.held * w.held <= w.c.token.supply * ONE ==> t.Ok?)
  {
    FloorGe(w.c.token.supply * ONE, w.held, 1);
    DrainPay(w.held, w.c.token.supply);
    BurnDestroys(w.c.token, who, w.c.token.supply);
  }

  /** When the whole supply can be burned, no part of it is ever quoted more than the holding. */
  lemma PartPaysWithin(held: nat, supply: nat, amount: nat)
    requires 0 < held && amount <= supply && held <= supply * ONE
    requires supply * ONE % held < supply * ONE / held
    ensures amount * ONE / (supply * ONE / held) <= held
  {
    DrainPay(held, supply);
    FloorMono(amount * ONE, supply * ONE, supply * ONE / held);
  }

  /** Rounding can also lock the last holder in: the one token here is quoted a quarter more LSD than
      there is. */
  lemma DrainCanFail()
    ensures var w := World(Storage(Token(map["a" := 1], map[], 1), "hub", None, Ledger(0, 0, 0)),
                           400_000_000_000_000_000, ONE, 1);
            && w.c.token.Valid() && BurnQuote(w.c, w.View(), 1) == Ok(500_000_000_000_000_000)
            && Transact(w, Info("a", []), 0, BurnAll) == Err(TransferFailed)
  {
    var balances: map<Addr, nat> := map["a" := 1];
    SumWithout(balances, "a");
    assert balances - {"a"} == map[];
    assert ONE / 400_000_000_000_000_000 == 2;
  }
}
