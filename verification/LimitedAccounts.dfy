/** Whose tokens and whose LSD the calls to the rate-limited wrapper move. */
module LimitedAccounts {
  import opened FixedPoint
  import opened Cw20
  import opened Lsd
  import opened Pricing
  import opened Messages
  import opened LimitedSpec

  /** The tokens that a mint-with creates. */
  function Minted(c: Storage, env: Env, msg: ExecuteMsg): nat {
    if msg.MintWith? && YieldQuote(c, env, msg.lsdAmount).Ok? then YieldQuote(c, env, msg.lsdAmount).value else 0
  }

  /** A handler does to the token what its message says; only a decompound changes the ledger too. */
  lemma HandlerFollowsMessage(c: Storage, env: Env, info: Info, msg: ExecuteMsg)
    requires Execute(c, env, info, msg).Ok?
    ensures var c' := Execute(c, env, info, msg).value.storage;
            && TokenAfter(c.token, info.sender, msg, Minted(c, env, msg)) == Ok(c'.token)
            && c' == c.(token := c'.token, ledger := c'.ledger)
            && (!msg.Decompound? ==> c'.ledger == c.ledger)
  {}

  lemma HandlerKeepsToken(c: Storage, env: Env, info: Info, msg: ExecuteMsg)
    requires c.token.Valid() && Execute(c, env, info, msg).Ok?
    ensures var c' := Execute(c, env, info, msg).value.storage;
            && c'.hub == c.hub && c'.maxRatio == c.maxRatio && c'.token.Valid()
            && (!IsMint(msg) ==> c'.token.supply <= c.token.supply)
            && (!IsMint(msg) && !IsBurn(msg) ==> c'.token.supply == c.token.supply)
  {
    HandlerFollowsMessage(c, env, info, msg);
    MessagesKeepToken(c.token, info.sender, msg, Minted(c, env, msg));
  }

  /** The LSD that a call brings in or sends out is exchanged with its counterparty alone, for exactly that
      amount. */
  lemma LsdIsExchanged(w: World, info: Info, spendable: nat, msg: ExecuteMsg, w': World, who: Addr)
    requires Transact(w, info, spendable, msg) == Ok(w')
    ensures var transfer := Execute(w.c, w.View(), info, msg).value.transfer;
            Inflow(transfer, who) == if who == Counterparty(info, msg) then w.held - w'.held else 0
  {}

  lemma TransactMovesToken(w: World, info: Info, spendable: nat, msg: ExecuteMsg, w': World)
    requires w.c.token.Valid() && Transact(w, info, spendable, msg) == Ok(w')
    ensures TokenAfter(w.c.token, info.sender, msg, Minted(w.c, w.View(), msg)) == Ok(w'.c.token)
    ensures w'.c.token.Valid()
  {
    HandlerFollowsMessage(w.c, w.View(), info, msg);
    HandlerKeepsToken(w.c, w.View(), info, msg);
  }

  /** A call that spends the tokens of an owner needs the owner's allowance for the caller, of at least the
      amount, and uses up exactly the amount of it. */
  lemma SpendingNeedsAllowance(w: World, info: Info, spendable: nat, msg: ExecuteMsg, w': World)
    requires w.c.token.Valid() && Spends(msg) && Transact(w, info, spendable, msg) == Ok(w')
    ensures var t := w.c.token;
            && (msg.owner, info.sender) in t.allowances
            && msg.amount <= t.Allowance(msg.owner, info.sender) && msg.amount <= t.BalanceOf(msg.owner)
            && w'.c.token.allowances ==
               t.allowances[(msg.owner, info.sender) := t.Allowance(msg.owner, info.sender) - msg.amount]
  {
    TransactMovesToken(w, info, spendable, msg, w');
    SpendingIsAllowed(w.c.token, info.sender, msg);
  }

  /** A call that neither mints, burns nor decompounds goes through exactly when the token permits it, and
      moves no LSD. */
  lemma TokenCallExactly(w: World, info: Info, spendable: nat, msg: ExecuteMsg)
    requires w.c.token.Valid() && !IsMint(msg) && !IsBurn(msg) && !msg.Decompound?
    ensures var t := Transact(w, info, spendable, msg);
            && (t.Ok? <==> MayMove(w.c.token, info.sender, msg, 0))
            && (t.Ok? ==> t.value == w.(c := t.value.c))
  {
    MayMoveExactly(w.c.token, info.sender, msg, 0);
  }

  lemma EventTakesGrantsOnly(w: World, e: Event, owner: Addr)
    requires w.c.token.Valid() && (e.Call? ==> e.info.sender != owner)
    ensures var t, t' := w.c.token, Step(w, e).c.token;
            t'.Valid() && t.BalanceOf(owner) - t'.BalanceOf(owner) <= Granted(t, owner) - Granted(t', owner)
  {
    if e.Call? && Transact(w, e.info, e.spendable, e.msg).Ok? {
      TransactMovesToken(w, e.info, e.spendable, e.msg, Step(w, e));
      OthersSpendGrants(w.c.token, e.info.sender, e.msg, Minted(w.c, w.View(), e.msg), owner);
    } else {
      assert Step(w, e).c == w.c;
    }
  }

  /** Over any run without calls of its own an owner loses tokens only out of what it had granted, and
      every token lost is taken off what is still granted. */
  lemma {:induction false} QuietOwnersLoseGrantsOnly(w: World, events: seq<Event>, owner: Addr)
    requires w.c.token.Valid() && Quiet(owner, events)
    ensures var t, t' := w.c.token, Run(w, events).c.token;
            t.BalanceOf(owner) - t'.BalanceOf(owner) <= Granted(t, owner) - Granted(t', owner)
    decreases |events|
  {
    if events == [] {
    } else {
      EventTakesGrantsOnly(w, events[0], owner);
      QuietOwnersLoseGrantsOnly(Step(w, events[0]), events[1..], owner);
    }
  }
}
