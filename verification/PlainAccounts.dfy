/** Whose tokens and whose LSD the calls to the wrapper without a limit move. */
module PlainAccounts {
  import opened FixedPoint
  import opened Cw20
  import opened Lsd
  import opened Pricing
  import opened Messages
  import opened PlainSpec

  /** The tokens that a mint-with creates. */
  function Minted(env: Env, msg: ExecuteMsg): nat {
    if msg.MintWith? && RateYield(msg.lsdAmount, env.rate).Ok? then RateYield(msg.lsdAmount, env.rate).value else 0
  }

  /** A handler does to the token what its message says, and nothing else to the storage. */
  lemma HandlerFollowsMessage(c: Storage, env: Env, info: Info, msg: ExecuteMsg)
    requires Execute(c, env, info, msg).Ok?
    ensures var c' := Execute(c, env, info, msg).value.storage;
            TokenAfter(c.token, info.sender, msg, Minted(env, msg)) == Ok(c'.token) && c' == c.(token := c'.token)
  {}

  lemma HandlerKeepsToken(c: Storage, env: Env, info: Info, msg: ExecuteMsg)
    requires c.token.Valid() && Execute(c, env, info, msg).Ok?
    ensures var c' := Execute(c, env, info, msg).value.storage;
            && c'.hub == c.hub && c'.lsd == c.lsd && c'.token.Valid()
            && (!IsMint(msg) ==> c'.token.supply <= c.token.supply)
            && (!IsMint(msg) && !IsBurn(msg) ==> c'.token.supply == c.token.supply)
  {
    HandlerFollowsMessage(c, env, info, msg);
    MessagesKeepToken(c.token, info.sender, msg, Minted(env, msg));
  }

  /** The LSD that a call brings in after its attached coins, or sends out, is exchanged with its
      counterparty alone, for exactly that amount. */
  lemma LsdIsExchanged(w: World, info: Info, spendable: nat, msg: ExecuteMsg, w': World, who: Addr)
    requires Transact(w, info, spendable, msg) == Ok(w')
    ensures var before := w.held + Attached(w.c.lsd, info.funds);
            var transfer := Execute(w.c, Env(w.rate, before, w.now), info, msg).value.transfer;
            Inflow(transfer, who) == if who == Counterparty(info, msg) then before - w'.held else 0
  {}

  lemma TransactMovesToken(w: World, info: Info, spendable: nat, msg: ExecuteMsg, w': World)
    requires w.c.token.Valid() && Transact(w, info, spendable, msg) == Ok(w')
    ensures var minted := Minted(Env(w.rate, w.held, w.now), msg);
            TokenAfter(w.c.token, info.sender, msg, minted) == Ok(w'.c.token)
    ensures w'.c.token.Valid()
  {
    var env := Env(w.rate, w.held + Attached(w.c.lsd, info.funds), w.now);
    HandlerFollowsMessage(w.c, env, info, msg);
    HandlerKeepsToken(w.c, env, info, msg);
  }

  /** A call that spends the tokens of an owner needs the owner's allowance for the caller, of at least the
      amount, and uses up exactly the amount of it. */
  lemma SpendingNeedsAllowance(w: World, info: Info, spendable: nat, msg: ExecuteMsg, w': World)
    requires w.c.token.Valid() && Spends(msg) && Transact(w, info, spendable, msg) == Ok(w')
    ensures var t := w.c.token;
            && (msg.owner, info.sender) in t.allowances
            && msg.amount <= t.Allowance(msg.owner, info.sender) && msg.amount <= t.BalanceOf(msg.owner)
            && w'.c.token.allowances ==
               t.allowances[(msg.owner, info.sender) := t.Allowance(msg.owner, info.sender) - msg.amount]
  {
    TransactMovesToken(w, info, spendable, msg, w');
    SpendingIsAllowed(w.c.token, info.sender, msg);
  }

  /** A call that neither mints, burns nor decompounds goes through exactly when the token permits it and
      the attached coins fit, and leaves the wrapper all the LSD. */
  lemma TokenCallExactly(w: World, info: Info, spendable: nat, msg: ExecuteMsg)
    requires w.c.token.Valid() && !IsMint(msg) && !IsBurn(msg) && !msg.Decompound?
    ensures var t, before := Transact(w, info, spendable, msg), w.held + Attached(w.c.lsd, info.funds);
            && (t.Ok? <==> before <= MAX128 && MayMove(w.c.token, info.sender, msg, 0))
            && (t.Ok? ==> t.value == w.(c := t.value.c, held := before))
  {
    MayMoveExactly(w.c.token, info.sender, msg, 0);
  }

  lemma EventTakesGrantsOnly(w: World, e: Event, owner: Addr)
    requires w.c.token.Valid() && (e.Call? ==> e.info.sender != owner)
    ensures var t, t' := w.c.token, Step(w, e).c.token;
            t'.Valid() && t.BalanceOf(owner) - t'.BalanceOf(owner) <= Granted(t, owner) - Granted(t', owner)
  {
    if e.Call? && Transact(w, e.info, e.spendable, e.msg).Ok? {
      TransactMovesToken(w, e.info, e.spendable, e.msg, Step(w, e));
      OthersSpendGrants(w.c.token, e.info.sender, e.msg, Minted(Env(w.rate, w.held, w.now), e.msg), owner);
    } else {
      assert Step(w, e).c == w.c;
    }
  }

  /** Over any run without calls of its own an owner loses tokens only out of what it had granted, and
      every token lost is taken off what is still granted. */
  lemma {:induction false} QuietOwnersLoseGrantsOnly(w: World, events: seq<Event>, owner: Addr)
    requires w.c.token.Valid() && Quiet(owner, events)
    ensures var t, t' := w.c.token, Run(w, events).c.token;
            t.BalanceOf(owner) - t'.BalanceOf(owner) <= Granted(t, owner) - Granted(t', owner)
    decreases |events|
  {
    if events == [] {
    } else {
      EventTakesGrantsOnly(w, events[0], owner);
      QuietOwnersLoseGrantsOnly(Step(w, events[0]), events[1..], owner);
    }
  }
}
