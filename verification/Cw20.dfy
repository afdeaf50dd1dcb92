/** The part of a CW20 token the wrappers delegate to: balances, allowances and the total supply,
    following the "Base", "Mintable" and "Allowances" sections of the CW20 specification. */
module Cw20 {
  import opened FixedPoint

  type Addr = string

  ghost function AnyKey(m: map<Addr, nat>): (k: Addr)
    requires m != map[]
    ensures k in m
  {
    assert m.Keys != {};
    var k :| k in m.Keys; k
  }

  lemma Dropping(m: map<Addr, nat>, k: Addr)
    requires k in m
    ensures |m - {k}| == |m| - 1
  {}

  /** The total of all balances. */
  ghost function Sum(m: map<Addr, nat>): nat
    decreases |m|
  {
    if m == map[] then 0 else Dropping(m, AnyKey(m)); m[AnyKey(m)] + Sum(m - {AnyKey(m)})
  }

  datatype Token = Token(balances: map<Addr, nat>, allowances: map<(Addr, Addr), nat>, supply: nat) {

    function BalanceOf(who: Addr): nat {
      if who in balances then balances[who] else 0
    }

    function Allowance(owner: Addr, spender: Addr): nat {
      if (owner, spender) in allowances then allowances[(owner, spender)] else 0
    }

    /** No token is created or lost outside mint and burn. */
    ghost predicate Valid() {
      supply == Sum(balances) && supply <= MAX128
    }

    function Debit(who: Addr, amount: nat): Result<Token> {
      if BalanceOf(who) < amount then Err(InsufficientBalance)
      else Ok(this.(balances := balances[who := BalanceOf(who) - amount]))
    }

    function Credit(who: Addr, amount: nat): Result<Token> {
      var sum :- Fit(BalanceOf(who) + amount);
      Ok(this.(balances := balances[who := sum]))
    }

    function Transfer(from: Addr, to: Addr, amount: nat): Result<Token> {
      var debited :- Debit(from, amount);
      debited.Credit(to, amount)
    }

    function Mint(to: Addr, amount: nat): Result<Token> {
      var total :- Fit(supply + amount);
      this.(supply := total).Credit(to, amount)
    }

    function Burn(from: Addr, amount: nat): Result<Token> {
      var debited :- Debit(from, amount);
      var total :- Fit(supply - amount);
      Ok(debited.(supply := total))
    }

    function IncreaseAllowance(owner: Addr, spender: Addr, amount: nat): Result<Token> {
      if owner == spender then Err(Unauthorized) else
      var sum :- Fit(Allowance(owner, spender) + amount);
      Ok(this.(allowances := allowances[(owner, spender) := sum]))
    }

    function DecreaseAllowance(owner: Addr, spender: Addr, amount: nat): Result<Token> {
      if owner == spender then Err(Unauthorized)
      else if (owner, spender) !in allowances then Err(NoAllowance)
      else if amount < Allowance(owner, spender) then
        Ok(this.(allowances := allowances[(owner, spender) := Allowance(owner, spender) - amount]))
      else
        Ok(this.(allowances := allowances - {(owner, spender)}))
    }

    function DeductAllowance(owner: Addr, spender: Addr, amount: nat): Result<Token> {
      if (owner, spender) !in allowances || Allowance(owner, spender) < amount then Err(NoAllowance)
      else Ok(this.(allowances := allowances[(owner, spender) := Allowance(owner, spender) - amount]))
    }

    function TransferFrom(spender: Addr, owner: Addr, to: Addr, amount: nat): Result<Token> {
      var deducted :- DeductAllowance(owner, spender, amount);
      deducted.Transfer(owner, to, amount)
    }

    function BurnFrom(spender: Addr, owner: Addr, amount: nat): Result<Token> {
      var deducted :- DeductAllowance(owner, spender, amount);
      deducted.Burn(owner, amount)
    }
  }

  const EMPTY: Token := Token(map[], map[], 0)

  // ---------- a new token ----------

  datatype Cw20Coin = Cw20Coin(address: Addr, amount: nat)

  predicate Distinct(coins: seq<Cw20Coin>) {
    forall i, j :: 0 <= i < j < |coins| ==> coins[i].address != coins[j].address
  }

  function Issue(coins: seq<Cw20Coin>): Result<Token> {
    if coins == [] then Ok(EMPTY) else
    var last := coins[|coins| - 1];
    var token :- Issue(coins[..|coins| - 1]);
    token.Mint(last.address, last.amount)
  }

  /** A token with the balances given at instantiation, each address listed once. */
  function Create(coins: seq<Cw20Coin>): Result<Token> {
    if Distinct(coins) then Issue(coins) else Err(InitFailed)
  }

  function Issued(coins: seq<Cw20Coin>): nat {
    if coins == [] then 0 else Issued(coins[..|coins| - 1]) + coins[|coins| - 1].amount
  }

  // ---------- conservation of tokens ----------

  lemma {:induction false} SumWithout(m: map<Addr, nat>, k: Addr)
    requires k in m
    ensures Sum(m) == m[k] + Sum(m - {k})
    decreases |m|
  {
    var j := AnyKey(m);
    if j != k {
      Dropping(m, j);
      Dropping(m, k);
      SumWithout(m - {j}, k);
      SumWithout(m - {k}, j);
      assert m - {j} - {k} == m - {k} - {j};
    }
  }

  lemma SumUpdate(m: map<Addr, nat>, k: Addr, v: nat)
    ensures Sum(m[k := v]) == Sum(m) - (if k in m then m[k] else 0) + v
  {
    SumWithout(m[k := v], k);
    if k in m {
      SumWithout(m, k);
      assert m[k := v] - {k} == m - {k};
    } else {
      assert m[k := v] - {k} == m;
    }
  }

  lemma {:induction false} SumOfZeros(m: map<Addr, nat>)
    requires forall k :: k in m ==> m[k] == 0
    ensures Sum(m) == 0
    decreases |m|
  {
    if m == map[] {
    } else {
      Dropping(m, AnyKey(m));
      SumOfZeros(m - {AnyKey(m)});
    }
  }

  lemma BalanceBelowSum(t: Token, who: Addr)
    ensures t.BalanceOf(who) <= Sum(t.balances)
  {
    if who in t.balances { SumWithout(t.balances, who); }
  }

  lemma DebitTakes(t: Token, who: Addr, amount: nat)
    requires amount <= t.BalanceOf(who)
    ensures t.Debit(who, amount).Ok?
    ensures Sum(t.Debit(who, amount).value.balances) == Sum(t.balances) - amount
  {
    SumUpdate(t.balances, who, t.BalanceOf(who) - amount);
  }

  lemma CreditAdds(t: Token, who: Addr, amount: nat)
    requires Sum(t.balances) + amount <= MAX128
    ensures t.Credit(who, amount).Ok?
    ensures Sum(t.Credit(who, amount).value.balances) == Sum(t.balances) + amount
  {
    BalanceBelowSum(t, who);
    SumUpdate(t.balances, who, t.BalanceOf(who) + amount);
  }

  /** A transfer between any two accounts, the same one included, goes through exactly when the sender
      holds the amount; it moves the amount, touches no other balance, and conserves the supply. */
  lemma TransferConserves(t: Token, from: Addr, to: Addr, amount: nat)
    requires t.Valid()
    ensures t.Transfer(from, to, amount).Ok? <==> amount <= t.BalanceOf(from)
    ensures t.Transfer(from, to, amount).Ok? ==>
              var t' := t.Transfer(from, to, amount).value;
              && t'.Valid() && t'.supply == t.supply && t'.allowances == t.allowances
              && (from != to ==> t'.BalanceOf(from) == t.BalanceOf(from) - amount)
              && (from != to ==> t'.BalanceOf(to) == t.BalanceOf(to) + amount)
              && forall who :: (who != from && who != to) || from == to ==> t'.BalanceOf(who) == t.BalanceOf(who)
  {
    if amount <= t.BalanceOf(from) {
      DebitTakes(t, from, amount);
      CreditAdds(t.Debit(from, amount).value, to, amount);
    }
  }

  /** A mint goes through exactly when the supply still fits, and credits the recipient alone. */
  lemma MintCreates(t: Token, to: Addr, amount: nat)
    requires t.Valid()
    ensures t.Mint(to, amount).Ok? <==> t.supply + amount <= MAX128
    ensures t.Mint(to, amount).Ok? ==>
              var t' := t.Mint(to, amount).value;
              && t'.Valid() && t'.supply == t.supply + amount && t'.allowances == t.allowances
              && forall who :: t'.BalanceOf(who) == t.BalanceOf(who) + if who == to then amount else 0
  {
    if t.supply + amount <= MAX128 { CreditAdds(t.(supply := t.supply + amount), to, amount); }
  }

  /** A burn goes through exactly when the account holds the amount, and debits that account alone. */
  lemma BurnDestroys(t: Token, from: Addr, amount: nat)
    requires t.Valid()
    ensures t.Burn(from, amount).Ok? <==> amount <= t.BalanceOf(from)
    ensures t.Burn(from, amount).Ok? ==>
              var t' := t.Burn(from, amount).value;
              && t'.Valid() && t'.supply == t.supply - amount && t'.allowances == t.allowances
              && forall who :: t'.BalanceOf(who) == t.BalanceOf(who) - if who == from then amount else 0
  {
    BalanceBelowSum(t, from);
    if amount <= t.BalanceOf(from) { DebitTakes(t, from, amount); }
  }

  /** Spending on someone's behalf needs both the owner's balance and an allowance, uses up exactly the
      amount of the allowance, and otherwise is the owner's own burn or transfer. */
  lemma SpendersAreAllowed(t: Token, spender: Addr, owner: Addr, to: Addr, amount: nat)
    requires t.Valid()
    ensures t.BurnFrom(spender, owner, amount).Ok? <==>
              (owner, spender) in t.allowances && amount <= t.Allowance(owner, spender) && amount <= t.BalanceOf(owner)
    ensures t.TransferFrom(spender, owner, to, amount).Ok? <==> t.BurnFrom(spender, owner, amount).Ok?
    ensures t.BurnFrom(spender, owner, amount).Ok? ==>
              var burned := t.BurnFrom(spender, owner, amount).value;
              var moved := t.TransferFrom(spender, owner, to, amount).value;
              && t.Burn(owner, amount) == Ok(burned.(allowances := t.allowances))
              && t.Transfer(owner, to, amount) == Ok(moved.(allowances := t.allowances))
              && burned.allowances == t.allowances[(owner, spender) := t.Allowance(owner, spender) - amount]
              && moved.allowances == burned.allowances
  {
    if t.DeductAllowance(owner, spender, amount).Ok? {
      BurnDestroys(t, owner, amount);
      TransferConserves(t, owner, to, amount);
      BurnDestroys(t.DeductAllowance(owner, spender, amount).value, owner, amount);
      TransferConserves(t.DeductAllowance(owner, spender, amount).value, owner, to, amount);
    }
  }

  /** An owner sets allowances for others only: a raise adds to one of them, if it fits, and a cut takes
      from an existing one, down to nothing; no balance and no other allowance changes. */
  lemma OwnersAllow(t: Token, owner: Addr, spender: Addr, amount: nat)
    ensures t.IncreaseAllowance(owner, spender, amount).Ok? <==>
              owner != spender && t.Allowance(owner, spender) + amount <= MAX128
    ensures t.DecreaseAllowance(owner, spender, amount).Ok? <==> owner != spender && (owner, spender) in t.allowances
    ensures t.IncreaseAllowance(owner, spender, amount).Ok? ==>
              var t' := t.IncreaseAllowance(owner, spender, amount).value;
              && t'.balances == t.balances && t'.supply == t.supply
              && t'.Allowance(owner, spender) == t.Allowance(owner, spender) + amount
              && forall o, s :: (o, s) != (owner, spender) ==> t'.Allowance(o, s) == t.Allowance(o, s)
    ensures t.DecreaseAllowance(owner, spender, amount).Ok? ==>
              var t' := t.DecreaseAllowance(owner, spender, amount).value;
              && t'.balances == t.balances && t'.supply == t.supply
              && t'.Allowance(owner, spender) == t.Allowance(owner, spender) - Min(amount, t.Allowance(owner, spender))
              && ((owner, spender) in t'.allowances <==> amount < t.Allowance(owner, spender))
              && forall o, s :: (o, s) != (owner, spender) ==> t'.Allowance(o, s) == t.Allowance(o, s)
  {}

  lemma {:induction false} IssueHolds(coins: seq<Cw20Coin>)
    requires Distinct(coins)
    ensures Issue(coins).Ok? <==> Issued(coins) <= MAX128
    ensures Issue(coins).Ok? ==>
              var t := Issue(coins).value;
              && t.Valid() && t.supply == Issued(coins) && t.allowances == map[]
              && (forall i :: 0 <= i < |coins| ==> t.BalanceOf(coins[i].address) == coins[i].amount)
              && forall who :: (forall i :: 0 <= i < |coins| ==> coins[i].address != who) ==> t.BalanceOf(who) == 0
  {
    if coins != [] {
      var rest, last := coins[..|coins| - 1], coins[|coins| - 1];
      IssueHolds(rest);
      if Issue(rest).Ok? {
        var t := Issue(rest).value;
        MintCreates(t, last.address, last.amount);
        assert t.BalanceOf(last.address) == 0;
        forall i | 0 <= i < |coins| && Issue(coins).Ok?
          ensures Issue(coins).value.BalanceOf(coins[i].address) == coins[i].amount
        {
          assert i < |rest| ==> coins[i] == rest[i];
        }
      }
    }
  }

  /** A token is created exactly when no address is listed twice and the balances fit together; they are
      then its only balances, it has no allowances, and its supply is their sum. */
  lemma CreateHolds(coins: seq<Cw20Coin>)
    ensures Create(coins).Ok? <==> Distinct(coins) && Issued(coins) <= MAX128
    ensures Create(coins).Ok? ==>
              var t := Create(coins).value;
              && t.Valid() && t.supply == Issued(coins) && t.allowances == map[]
              && (forall i :: 0 <= i < |coins| ==> t.BalanceOf(coins[i].address) == coins[i].amount)
              && forall who :: (forall i :: 0 <= i < |coins| ==> coins[i].address != who) ==> t.BalanceOf(who) == 0
  {
    if Distinct(coins) { IssueHolds(coins); }
  }
}
