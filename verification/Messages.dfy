/** What the messages of both wrappers may do to whose tokens. */
module Messages {
  import opened FixedPoint
  import opened Cw20
  import opened Lsd

  // ---------- one message ----------

  /** A message that spends the tokens of an owner on the strength of an allowance. */
  predicate Spends(msg: ExecuteMsg) {
    msg.TransferFrom? || msg.BurnFrom? || msg.SendFrom?
  }

  /** Whose tokens a message takes. */
  function Payer(sender: Addr, msg: ExecuteMsg): Option<Addr> {
    if Spends(msg) then Some(msg.owner)
    else if msg.TransferTokens? || msg.Burn? || msg.BurnAll? || msg.Send? then Some(sender)
    else None
  }

  /** Who receives the tokens of a message. */
  function Payee(msg: ExecuteMsg): Option<Addr> {
    if msg.TransferTokens? || msg.TransferFrom? || IsMint(msg) then Some(msg.recipient)
    else if msg.Send? || msg.SendFrom? then Some(msg.contract)
    else None
  }

  /** How many tokens a message moves, creates or destroys. */
  function Moved(t: Token, sender: Addr, msg: ExecuteMsg, minted: nat): nat {
    if msg.BurnAll? then t.BalanceOf(sender)
    else if msg.MintWith? then minted
    else if Payer(sender, msg).Some? || msg.Mint? then msg.amount
    else 0
  }

  predicate Administers(msg: ExecuteMsg) {
    msg.UpdateMinter? || msg.UpdateMarketing? || msg.UploadLogo?
  }

  /** What the token asks of a message: that the payer has the tokens and, unless it is the sender's own
      message, allowed the sender as many; that created tokens and raised allowances fit; and that owners
      change allowances of others only. */
  predicate MayMove(t: Token, sender: Addr, msg: ExecuteMsg, minted: nat) {
    var amount := Moved(t, sender, msg, minted);
    && !Administers(msg)
    && (Payer(sender, msg).Some? ==> amount <= t.BalanceOf(Payer(sender, msg).value))
    && (Spends(msg) ==> (msg.owner, sender) in t.allowances && amount <= t.Allowance(msg.owner, sender))
    && (IsMint(msg) ==> t.supply + amount <= MAX128)
    && (msg.IncreaseAllowance? ==> sender != msg.spender && t.Allowance(sender, msg.spender) + msg.amount <= MAX128)
    && (msg.DecreaseAllowance? ==> sender != msg.spender && (sender, msg.spender) in t.allowances)
  }

  /** The owner's own message with the effect of a spending one. */
  function AsOwner(msg: ExecuteMsg): ExecuteMsg
    requires Spends(msg)
  {
    match msg
    case TransferFrom(_, recipient, amount) => TransferTokens(recipient, amount)
    case BurnFrom(_, amount) => Burn(amount)
    case SendFrom(_, contract, amount) => Send(contract, amount)
  }

  /** Spending is what the owner could have done, on an allowance of at least the amount, which it uses up. */
  lemma SpendingIsAllowed(t: Token, sender: Addr, msg: ExecuteMsg)
    requires t.Valid() && Spends(msg)
    ensures var spent, own := TokenAfter(t, sender, msg, 0), TokenAfter(t, msg.owner, AsOwner(msg), 0);
            && (spent.Ok? <==> (msg.owner, sender) in t.allowances
                               && msg.amount <= t.Allowance(msg.owner, sender) && msg.amount <= t.BalanceOf(msg.owner))
            && (spent.Ok? ==>
                  && own == Ok(spent.value.(allowances := t.allowances))
                  && spent.value.allowances
                     == t.allowances[(msg.owner, sender) := t.Allowance(msg.owner, sender) - msg.amount])
  {
    SpendersAreAllowed(t, sender, msg.owner, if msg.BurnFrom? then msg.owner else Payee(msg).value, msg.amount);
  }

  lemma OwnMayMove(t: Token, sender: Addr, msg: ExecuteMsg, minted: nat)
    requires t.Valid() && !Spends(msg)
    ensures TokenAfter(t, sender, msg, minted).Ok? <==> MayMove(t, sender, msg, minted)
  {
    var amount := Moved(t, sender, msg, minted);
    if IsMint(msg) {
      MintCreates(t, msg.recipient, amount);
    } else if IsBurn(msg) {
      BurnDestroys(t, sender, amount);
    } else if Payee(msg).Some? {
      TransferConserves(t, sender, Payee(msg).value, amount);
    } else if msg.IncreaseAllowance? || msg.DecreaseAllowance? {
      OwnersAllow(t, sender, msg.spender, msg.amount);
    }
  }

  /** That is all it asks: a message changes the token exactly when it may. */
  lemma MayMoveExactly(t: Token, sender: Addr, msg: ExecuteMsg, minted: nat)
    requires t.Valid()
    ensures TokenAfter(t, sender, msg, minted).Ok? <==> MayMove(t, sender, msg, minted)
  {
    if Spends(msg) { SpendingIsAllowed(t, sender, msg); } else { OwnMayMove(t, sender, msg, minted); }
  }

  lemma OwnBalancesMove(t: Token, sender: Addr, msg: ExecuteMsg, minted: nat, who: Addr)
    requires t.Valid() && !Spends(msg) && TokenAfter(t, sender, msg, minted).Ok?
    ensures var amount := Moved(t, sender, msg, minted);
            TokenAfter(t, sender, msg, minted).value.BalanceOf(who) ==
            t.BalanceOf(who) - (if Payer(sender, msg) == Some(who) then amount else 0)
                             + (if Payee(msg) == Some(who) then amount else 0)
  {
    var amount := Moved(t, sender, msg, minted);
    if IsMint(msg) {
      MintCreates(t, msg.recipient, amount);
    } else if IsBurn(msg) {
      BurnDestroys(t, sender, amount);
    } else if Payee(msg).Some? {
      TransferConserves(t, sender, Payee(msg).value, amount);
    }
  }

  /** A message takes what it moves from its payer and gives it to its payee; no other balance changes. */
  lemma BalancesMove(t: Token, sender: Addr, msg: ExecuteMsg, minted: nat, who: Addr)
    requires t.Valid() && TokenAfter(t, sender, msg, minted).Ok?
    ensures var amount := Moved(t, sender, msg, minted);
            TokenAfter(t, sender, msg, minted).value.BalanceOf(who) ==
            t.BalanceOf(who) - (if Payer(sender, msg) == Some(who) then amount else 0)
                             + (if Payee(msg) == Some(who) then amount else 0)
  {
    if Spends(msg) {
      SpendingIsAllowed(t, sender, msg);
      OwnBalancesMove(t, msg.owner, AsOwner(msg), 0, who);
    } else {
      OwnBalancesMove(t, sender, msg, minted, who);
    }
  }

  lemma OwnAllowancesMove(t: Token, sender: Addr, msg: ExecuteMsg, minted: nat, owner: Addr, spender: Addr)
    requires t.Valid() && !Spends(msg) && TokenAfter(t, sender, msg, minted).Ok?
    ensures var was := t.Allowance(owner, spender);
            TokenAfter(t, sender, msg, minted).value.Allowance(owner, spender) ==
            if msg.IncreaseAllowance? && sender == owner && msg.spender == spender then was + msg.amount
            else if msg.DecreaseAllowance? && sender == owner && msg.spender == spender then was - Min(msg.amount, was)
            else was
  {
    if msg.IncreaseAllowance? || msg.DecreaseAllowance? { OwnersAllow(t, sender, msg.spender, msg.amount); }
  }

  /** An allowance changes only by its owner's own messages, and by its spender's use of it. */
  lemma AllowancesMove(t: Token, sender: Addr, msg: ExecuteMsg, minted: nat, owner: Addr, spender: Addr)
    requires t.Valid() && TokenAfter(t, sender, msg, minted).Ok?
    ensures var was := t.Allowance(owner, spender);
            TokenAfter(t, sender, msg, minted).value.Allowance(owner, spender) ==
            if Spends(msg) && msg.owner == owner && sender == spender then was - msg.amount
            else if msg.IncreaseAllowance? && sender == owner && msg.spender == spender then was + msg.amount
            else if msg.DecreaseAllowance? && sender == owner && msg.spender == spender then was - Min(msg.amount, was)
            else was
  {
    if Spends(msg) {
      SpendingIsAllowed(t, sender, msg);
    } else {
      OwnAllowancesMove(t, sender, msg, minted, owner, spender);
    }
  }

  // ---------- what others may do ----------

  /** What an owner has allowed others to spend. */
  function Grants(t: Token, owner: Addr): map<Addr, nat> {
    map p | p in t.allowances && p.0 == owner :: p.1 := t.allowances[p]
  }

  ghost function Granted(t: Token, owner: Addr): nat {
    Sum(Grants(t, owner))
  }

  lemma GrantsUsed(t: Token, t': Token, owner: Addr, spender: Addr, left: nat)
    requires t'.allowances == t.allowances[(owner, spender) := left] && (owner, spender) in t.allowances
    ensures Granted(t', owner) == Granted(t, owner) - t.Allowance(owner, spender) + left
  {
    assert Grants(t', owner) == Grants(t, owner)[spender := left];
    SumUpdate(Grants(t, owner), spender, left);
  }

  /** A message that neither spends nor changes an allowance keeps all of them. */
  lemma OthersKeepAllowances(t: Token, sender: Addr, msg: ExecuteMsg, minted: nat)
    requires TokenAfter(t, sender, msg, minted).Ok?
    requires !Spends(msg) && !msg.IncreaseAllowance? && !msg.DecreaseAllowance?
    ensures TokenAfter(t, sender, msg, minted).value.allowances == t.allowances
  {}

  lemma GrantsKept(t: Token, t': Token, owner: Addr)
    requires forall s :: (owner, s) in t'.allowances <==> (owner, s) in t.allowances
    requires forall s :: (owner, s) in t.allowances ==> t'.allowances[(owner, s)] == t.allowances[(owner, s)]
    ensures Granted(t', owner) == Granted(t, owner)
  {
    assert Grants(t', owner) == Grants(t, owner);
  }

  lemma OthersKeepGrants(t: Token, sender: Addr, msg: ExecuteMsg, minted: nat, owner: Addr)
    requires t.Valid() && TokenAfter(t, sender, msg, minted).Ok? && sender != owner
    requires Spends(msg) ==> msg.owner != owner
    ensures Granted(TokenAfter(t, sender, msg, minted).value, owner) == Granted(t, owner)
  {
    var t' := TokenAfter(t, sender, msg, minted).value;
    if Spends(msg) {
      SpendingIsAllowed(t, sender, msg);
    } else if !msg.IncreaseAllowance? && !msg.DecreaseAllowance? {
      OthersKeepAllowances(t, sender, msg, minted);
    }
    GrantsKept(t, t', owner);
  }

  /** The messages of others take tokens of an owner only out of what the owner granted them. */
  lemma OthersSpendGrants(t: Token, sender: Addr, msg: ExecuteMsg, minted: nat, owner: Addr)
    requires t.Valid() && TokenAfter(t, sender, msg, minted).Ok? && sender != owner
    ensures var t' := TokenAfter(t, sender, msg, minted).value;
            t.BalanceOf(owner) - t'.BalanceOf(owner) <= Granted(t, owner) - Granted(t', owner)
  {
    var t' := TokenAfter(t, sender, msg, minted).value;
    BalancesMove(t, sender, msg, minted, owner);
    if Spends(msg) && msg.owner == owner {
      SpendingIsAllowed(t, sender, msg);
      GrantsUsed(t, t', owner, sender, t.Allowance(owner, sender) - msg.amount);
    } else {
      OthersKeepGrants(t, sender, msg, minted, owner);
    }
  }

  /** The owner makes no call in the run. */
  predicate Quiet(owner: Addr, events: seq<Event>) {
    forall i :: 0 <= i < |events| && events[i].Call? ==> events[i].info.sender != owner
  }

  // ---------- the LSD ----------

  /** The account that exchanges LSD with the wrapper in a call: the caller, or the recipient a decompound
      names. */
  function Counterparty(info: Info, msg: ExecuteMsg): Addr {
    if msg.Decompound? && msg.to.Some? then msg.to.value else info.sender
  }

  /** The LSD that a delivered transfer brings to an account. */
  function Inflow(t: Transfer, who: Addr): int {
    match t
    case Pull(from, amount) => if from == who then 0 - amount else 0
    case Push(to, amount) => if to == who then amount else 0
    case _ => 0
  }
}
