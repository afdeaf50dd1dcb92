/** When minting and burning with the wrapper without a limit go through, and what they exchange. */
module PlainTrading {
  import opened FixedPoint
  import opened Cw20
  import opened Lsd
  import opened Pricing
  import opened Messages
  import opened PlainSpec
  import opened PlainAccounts

  /** A burn of any kind goes through exactly when the token permits it and the amount can be paid at the
      rate. It pays the most LSD that is worth no more than the burned tokens. */
  lemma BurnExactly(w: World, info: Info, spendable: nat, msg: ExecuteMsg)
    requires w.c.token.Valid() && IsBurn(msg)
    ensures var t, before := Transact(w, info, spendable, msg), w.held + Attached(w.c.lsd, info.funds);
            var amount := Moved(w.c.token, info.sender, msg, 0);
            && (t.Ok? <==> before <= MAX128 && MayMove(w.c.token, info.sender, msg, 0)
                           && ((msg.BurnAll? && amount == 0) || Payable(amount, w.rate, before)))
            && (t.Ok? ==>
                  var pay := before - t.value.held;
                  && t.value == w.(c := w.c.(token := t.value.c.token), held := t.value.held)
                  && t.value.c.token.supply == w.c.token.supply - amount
                  && 0 <= pay && pay * w.rate <= amount * ONE
                  && (amount != 0 ==> amount * ONE < (pay + 1) * w.rate))
  {
    var amount := Moved(w.c.token, info.sender, msg, 0);
    var before := w.held + Attached(w.c.lsd, info.funds);
    MayMoveExactly(w.c.token, info.sender, msg, 0);
    PayableExactly(amount, w.rate, before);
    FairPrice(amount, w.rate);
    if Spends(msg) { SpendingIsAllowed(w.c.token, info.sender, msg); }
    if MayMove(w.c.token, info.sender, msg, 0) {
      BurnDestroys(w.c.token, Payer(info.sender, msg).value, amount);
    }
  }

  /** A mint goes through exactly when the supply fits and a deposit that can be had affords it. It creates
      the amount for the recipient; pulled LSD is the least that is worth more than it. */
  lemma MintExactly(w: World, info: Info, spendable: nat, recipient: Addr, amount: nat)
    requires w.c.token.Valid()
    ensures var t := Transact(w, info, spendable, Mint(recipient, amount));
            var most := Acceptable(w.c.lsd, info, spendable, w.held);
            && (t.Ok? <==> w.c.token.supply + amount <= MAX128
                           && most.Some? && Affordable(amount, w.rate, most.value))
            && (t.Ok? ==>
                  && w.c.token.Mint(recipient, amount) == Ok(t.value.c.token)
                  && t.value == w.(c := w.c.(token := t.value.c.token), held := t.value.held)
                  && if w.c.lsd.BankCoin? then t.value.held == w.held + most.value
                     else (t.value.held - w.held - 1) * w.rate <= amount * ONE < (t.value.held - w.held) * w.rate)
  {
    var most := Acceptable(w.c.lsd, info, spendable, w.held);
    MintCreates(w.c.token, recipient, amount);
    FairPrice(amount, w.rate);
    if most.Some? { AffordableExactly(amount, w.rate, most.value); }
    if MintCost(amount, w.rate).Ok? {
      DepositExactly(w.c.lsd, info, MintCost(amount, w.rate).value, w.held, spendable);
    }
  }

  /** A mint with LSD goes through exactly when the LSD can be priced and had and the supply fits. It takes
      that LSD and creates the most tokens that are worth no more, for the recipient. */
  lemma MintWithExactly(w: World, info: Info, spendable: nat, recipient: Addr, lsd: nat)
    requires w.c.token.Valid()
    ensures var t := Transact(w, info, spendable, MintWith(recipient, lsd));
            var most := Acceptable(w.c.lsd, info, spendable, w.held);
            && (t.Ok? <==> lsd * ONE <= MAX128 && lsd * w.rate <= MAX128 && most.Some? && lsd <= most.value
                           && lsd * w.rate < (MAX128 - w.c.token.supply + 1) * ONE)
            && (t.Ok? ==>
                  var gain := t.value.c.token.supply - w.c.token.supply;
                  && 0 <= gain && w.c.token.Mint(recipient, gain) == Ok(t.value.c.token)
                  && t.value == w.(c := w.c.(token := t.value.c.token), held := t.value.held)
                  && gain * ONE <= lsd * w.rate < (gain + 1) * ONE
                  && t.value.held == w.held + if w.c.lsd.BankCoin? then most.value else lsd)
  {
    var amount := lsd * w.rate / ONE;
    MintCreates(w.c.token, recipient, amount);
    FairYield(lsd, w.rate);
    YieldFits(lsd, w.rate, MAX128 - w.c.token.supply);
    DepositExactly(w.c.lsd, info, lsd, w.held, spendable);
  }
}
