/** Leaving the wrapper without a limit: round trips, splitting, and everyone's exit. */
module PlainExit {
  import opened FixedPoint
  import opened Cw20
  import opened Lsd
  import opened Pricing
  import opened PlainSpec
  import opened PlainBacking

  // ---------- round trips ----------

  /** Minting tokens and burning them at the same rate leaves at least one LSD behind, exactly one for
      pulled LSD, and the supply and the balance as they were. */
  lemma MintThenBurn(w: World, info: Info, spendable: nat, amount: nat, w1: World, w2: World)
    requires w.c.token.Valid()
    requires Transact(w, info, spendable, Mint(info.sender, amount)) == Ok(w1)
    requires Transact(w1, Info(info.sender, []), 0, Burn(amount)) == Ok(w2)
    ensures w2.held >= w.held + 1 && (w.c.lsd.Cw20Lsd? ==> w2.held == w.held + 1)
    ensures w2.c.token.supply == w.c.token.supply
    ensures w2.c.token.BalanceOf(info.sender) == w.c.token.BalanceOf(info.sender)
  {
    DepositArrives(w.c.lsd, info, MintCost(amount, w.rate).value, w.held, spendable);
    MintCreates(w.c.token, info.sender, amount);
    BurnDestroys(w1.c.token, info.sender, amount);
  }

  /** Burning what an amount of LSD minted returns at most that LSD, and at a rate of at least one all
      of it but one. */
  lemma YieldThenPay(lsd: nat, rate: nat)
    requires RateYield(lsd, rate).Ok? && BurnPay(RateYield(lsd, rate).value, rate).Ok?
    ensures var pay := BurnPay(RateYield(lsd, rate).value, rate).value;
            pay <= lsd && (rate >= ONE ==> lsd - 1 <= pay)
  {
    var amount := RateYield(lsd, rate).value;
    FairYield(lsd, rate);
    FairPrice(amount, rate);
    var pay := BurnPay(amount, rate).value;
    CancelLe(pay, lsd, rate);
    if rate >= ONE {
      assert (lsd - 1) * rate == lsd * rate - rate;
      CancelLt(lsd - 1, pay + 1, rate);
    }
  }

  /** Minting with LSD and burning the yield takes no LSD out of the wrapper, and at a rate of at least
      one leaves at most one of the pulled LSD in it. */
  lemma MintWithThenBurn(w: World, info: Info, spendable: nat, lsdAmount: nat, w1: World, amount: nat, w2: World)
    requires w.c.token.Valid()
    requires Transact(w, info, spendable, MintWith(info.sender, lsdAmount)) == Ok(w1)
    requires amount == w1.c.token.supply - w.c.token.supply
    requires Transact(w1, Info(info.sender, []), 0, Burn(amount)) == Ok(w2)
    ensures w.held <= w2.held && (w.c.lsd.Cw20Lsd? && w.rate >= ONE ==> w2.held <= w.held + 1)
    ensures w2.c.token.supply == w.c.token.supply
  {
    DepositArrives(w.c.lsd, info, lsdAmount, w.held, spendable);
    MintCreates(w.c.token, info.sender, RateYield(lsdAmount, w.rate).value);
    BurnDestroys(w1.c.token, info.sender, amount);
    YieldThenPay(lsdAmount, w.rate);
  }

  // ---------- splitting a burn ----------

  function Total(amounts: seq<nat>): nat {
    if amounts == [] then 0 else amounts[0] + Total(amounts[1..])
  }

  function Paid(amounts: seq<nat>, rate: nat): nat
    requires 0 < rate
  {
    if amounts == [] then 0 else amounts[0] * ONE / rate + Paid(amounts[1..], rate)
  }

  lemma FloorSum(a: nat, b: nat, d: nat)
    requires 0 < d
    ensures a / d + b / d <= (a + b) / d <= a / d + b / d + 1
    ensures b == 0 ==> (a + b) / d == a / d
  {
    Floor(a, d);
    Floor(b, d);
    assert (a / d + b / d) * d == a / d * d + b / d * d;
    assert (a / d + b / d + 2) * d == a / d * d + b / d * d + 2 * d;
    FloorGe(a + b, d, a / d + b / d);
    FloorGe(a + b, d, a / d + b / d + 2);
  }

  /** Burning an amount in k parts never pays more than burning it at once, and loses fewer than k LSD. */
  lemma {:induction false} SplitBurn(amounts: seq<nat>, rate: nat)
    requires 0 < rate
    ensures Paid(amounts, rate) <= Total(amounts) * ONE / rate
    ensures amounts != [] ==> Total(amounts) * ONE / rate < Paid(amounts, rate) + |amounts|
  {
    if amounts == [] {
    } else {
      var first, rest := amounts[0] * ONE, Total(amounts[1..]) * ONE;
      SplitBurn(amounts[1..], rate);
      FloorSum(first, rest, rate);
      if |amounts| == 1 { assert rest == 0; }
    }
  }

  // ---------- everyone can exit ----------

  /** The token is valid and backed at a positive rate. */
  ghost predicate CanPay(w: World) {
    Sound(w) && 0 < w.rate && w.held <= MAX128
  }

  /** What a part of a backed supply is worth is within the holding. */
  lemma PartIsHeld(held: nat, supply: nat, rate: nat, amount: nat)
    requires Backed(held, supply, rate) && 0 < rate && amount <= supply
    ensures amount * ONE / rate <= held
  {
    FloorGe(amount * ONE, rate, held + 1);
    assert (held + 1) * rate == held * rate + rate;
  }

  /** The price arithmetic goes through for any part of a backed supply whose holding the query and the
      decompound can price. */
  lemma PartIsPriced(held: nat, supply: nat, rate: nat, amount: nat)
    requires Backed(held, supply, rate) && 0 < rate && amount <= supply
    requires held * ONE <= MAX128 && held * rate <= MAX128
    ensures BurnPay(amount, rate).Ok?
  {
    GrossFits(held, amount, rate);
    PartIsHeld(held, supply, rate, amount);
  }

  /** At a rate of one or more it goes through for every amount that fits a decimal. */
  lemma PricedFromRateOne(amount: nat, rate: nat)
    requires ONE <= rate && amount * ONE <= MAX128
    ensures BurnPay(amount, rate).Ok?
  {
    FloorGe(amount * ONE * ONE, rate, amount * ONE + 1);
    MulLe(ONE, rate, amount * ONE + 1);
  }

  /** At any positive rate it goes through for up to 340 tokens at a time. */
  lemma SmallAmountsArePriced(amount: nat, rate: nat)
    requires 0 < rate && amount <= 340
    ensures BurnPay(amount, rate).Ok?
  {
    FloorGe(amount * ONE * ONE, rate, amount * ONE * ONE + 1);
    MulLe(1, rate, amount * ONE * ONE + 1);
  }

  /** What is priced stays priced in smaller amounts. */
  lemma LessIsPriced(amount: nat, more: nat, rate: nat)
    requires amount <= more && BurnPay(more, rate).Ok?
    ensures BurnPay(amount, rate).Ok?
  {
    FloorMono(amount * ONE * ONE, more * ONE * ONE, rate);
  }

  /** A holder can burn any part of their balance exactly when the price arithmetic goes through for the
      amount: the holding never falls short. The wrapper can still pay everyone afterwards. */
  lemma BurnSucceeds(w: World, who: Addr, amount: nat)
    requires CanPay(w) && amount <= w.c.token.BalanceOf(who)
    ensures var t := Transact(w, Info(who, []), 0, Burn(amount));
            && (t.Ok? <==> BurnPay(amount, w.rate).Ok?)
            && (t.Ok? ==>
                  && CanPay(t.value) && t.value.rate == w.rate
                  && t.value.held == w.held - amount * ONE / w.rate
                  && w.c.token.Burn(who, amount) == Ok(t.value.c.token))
  {
    var supply := w.c.token.supply;
    BurnDestroys(w.c.token, who, amount);
    BalanceBelowSum(w.c.token, who);
    PartIsHeld(w.held, supply, w.rate, amount);
    assert Attached(w.c.lsd, []) == 0;
    if BurnPay(amount, w.rate).Ok? {
      FairPrice(amount, w.rate);
      BurnSurplus(w.held, supply, w.rate, amount, amount * ONE / w.rate);
    }
  }

  datatype Exit = Exit(who: Addr, amount: nat)

  function Burns(exits: seq<Exit>): seq<Event> {
    seq(|exits|, i requires 0 <= i < |exits| => Call(Info(exits[i].who, []), 0, Burn(exits[i].amount)))
  }

  function AskedBy(who: Addr, exits: seq<Exit>): nat {
    if exits == [] then 0 else (if exits[0].who == who then exits[0].amount else 0) + AskedBy(who, exits[1..])
  }

  function Amounts(exits: seq<Exit>): seq<nat> {
    seq(|exits|, i requires 0 <= i < |exits| => exits[i].amount)
  }

  /** The price arithmetic goes through for every burn. */
  predicate Priced(exits: seq<Exit>, rate: nat) {
    forall i :: 0 <= i < |exits| ==> BurnPay(exits[i].amount, rate).Ok?
  }

  /** The burns together ask of every holder no more than their balance. */
  ghost predicate Covers(t: Token, exits: seq<Exit>) {
    forall who :: AskedBy(who, exits) <= t.BalanceOf(who)
  }

  /** Burns of priced amounts that together ask of every holder no more than their balance all succeed, in
      any order and any number: every one of them pays in full and takes its amount off the supply. */
  lemma {:induction false} EveryoneCanExit(w: World, exits: seq<Exit>)
    requires CanPay(w) && Priced(exits, w.rate) && Covers(w.c.token, exits)
    ensures var w' := Run(w, Burns(exits));
            && CanPay(w')
            && w'.held == w.held - Paid(Amounts(exits), w.rate)
            && w'.c.token.supply == w.c.token.supply - Total(Amounts(exits))
    decreases |exits|
  {
    if exits == [] {
    } else {
      var who, amount, rest := exits[0].who, exits[0].amount, exits[1..];
      assert AskedBy(who, exits) == amount + AskedBy(who, rest);
      BurnSucceeds(w, who, amount);
      BurnDestroys(w.c.token, who, amount);
      var w1 := Step(w, Burns(exits)[0]);
      forall other ensures AskedBy(other, rest) <= w1.c.token.BalanceOf(other) {
        assert AskedBy(other, exits) <= w.c.token.BalanceOf(other);
      }
      assert Burns(exits)[1..] == Burns(rest);
      assert Amounts(exits)[1..] == Amounts(rest);
      EveryoneCanExit(w1, rest);
    }
  }

  // ---------- draining the token ----------

  function BurnAlls(holders: seq<Addr>): seq<Event> {
    seq(|holders|, i requires 0 <= i < |holders| => Call(Info(holders[i], []), 0, BurnAll))
  }

  /** A burn-all by each of some holders whose balances are priced, in any order and possibly repeated,
      empties exactly their balances. */
  lemma {:induction false} BurnAllDrains(w: World, holders: seq<Addr>)
    requires CanPay(w)
    requires forall who :: who in holders ==> BurnPay(w.c.token.BalanceOf(who), w.rate).Ok?
    ensures var w' := Run(w, BurnAlls(holders));
            && CanPay(w')
            && forall who :: w'.c.token.BalanceOf(who) == if who in holders then 0 else w.c.token.BalanceOf(who)
    decreases |holders|
  {
    if holders == [] {
    } else {
      var who := holders[0];
      BurnSucceeds(w, who, w.c.token.BalanceOf(who));
      BurnDestroys(w.c.token, who, w.c.token.BalanceOf(who));
      assert Attached(w.c.lsd, []) == 0;
      assert BurnAlls(holders)[1..] == BurnAlls(holders[1..]);
      SmallAmountsArePriced(0, w.rate);
      BurnAllDrains(Step(w, BurnAlls(holders)[0]), holders[1..]);
    }
  }

  /** Once everyone with a balance has called burn-all, nothing is left of the supply. */
  lemma LastOneOut(w: World, holders: seq<Addr>)
    requires CanPay(w) && forall who :: w.c.token.BalanceOf(who) > 0 ==> who in holders
    requires forall who :: who in holders ==> BurnPay(w.c.token.BalanceOf(who), w.rate).Ok?
    ensures Run(w, BurnAlls(holders)).c.token.supply == 0
  {
    BurnAllDrains(w, holders);
    var t := Run(w, BurnAlls(holders)).c.token;
    forall k | k in t.balances ensures t.balances[k] == 0 {
      assert t.BalanceOf(k) == 0;
    }
    SumOfZeros(t.balances);
  }

  // ---------- a way out of every backed state ----------

  /** One holder's balance in burns of at most a chunk. */
  function InChunks(who: Addr, balance: nat, chunk: nat): seq<Exit>
    requires 0 < chunk
    decreases balance
  {
    if balance == 0 then []
    else [Exit(who, Min(chunk, balance))] + InChunks(who, balance - Min(chunk, balance), chunk)
  }

  ghost function WayOut(m: map<Addr, nat>, chunk: nat): seq<Exit>
    requires 0 < chunk
    decreases |m|
  {
    if m == map[] then []
    else
      Dropping(m, AnyKey(m));
      InChunks(AnyKey(m), m[AnyKey(m)], chunk) + WayOut(m - {AnyKey(m)}, chunk)
  }

  lemma {:induction false} ChunksAsk(who: Addr, balance: nat, chunk: nat, rest: seq<Exit>, other: Addr)
    requires 0 < chunk
    ensures var exits := InChunks(who, balance, chunk) + rest;
            && AskedBy(other, exits) == (if other == who then balance else 0) + AskedBy(other, rest)
            && Total(Amounts(exits)) == balance + Total(Amounts(rest))
    ensures forall e :: e in InChunks(who, balance, chunk) ==> e.amount <= chunk
    decreases balance
  {
    var exits := InChunks(who, balance, chunk) + rest;
    if balance == 0 {
      assert exits == rest;
    } else {
      var left := balance - Min(chunk, balance);
      ChunksAsk(who, left, chunk, rest, other);
      assert exits[1..] == InChunks(who, left, chunk) + rest;
      assert Amounts(exits)[1..] == Amounts(exits[1..]);
    }
  }

  lemma {:induction false} ChunkCount(who: Addr, balance: nat, chunk: nat)
    requires 0 < chunk
    ensures (|InChunks(who, balance, chunk)| - 1) * chunk <= balance
    decreases balance
  {
    if balance == 0 {
    } else if balance <= chunk {
      assert InChunks(who, 0, chunk) == [];
    } else {
      ChunkCount(who, balance - chunk, chunk);
    }
  }

  lemma CountsAdd(a: int, b: int, chunk: nat)
    ensures (a + b) * chunk == a * chunk + b * chunk
  {}

  lemma {:induction false} WayOutAsks(m: map<Addr, nat>, chunk: nat, other: Addr)
    requires 0 < chunk
    ensures AskedBy(other, WayOut(m, chunk)) == if other in m then m[other] else 0
    ensures Total(Amounts(WayOut(m, chunk))) == Sum(m)
    decreases |m|
  {
    if m == map[] {
    } else {
      var k := AnyKey(m);
      Dropping(m, k);
      WayOutAsks(m - {k}, chunk, other);
      ChunksAsk(k, m[k], chunk, WayOut(m - {k}, chunk), other);
    }
  }

  lemma WayOutIsHeld(t: Token, chunk: nat)
    requires t.Valid() && 0 < chunk
    ensures Covers(t, WayOut(t.balances, chunk))
    ensures Total(Amounts(WayOut(t.balances, chunk))) == t.supply
  {
    forall who ensures AskedBy(who, WayOut(t.balances, chunk)) <= t.BalanceOf(who) {
      WayOutAsks(t.balances, chunk, who);
    }
    WayOutAsks(t.balances, chunk, "");
  }

  lemma {:induction false} WayOutChunks(m: map<Addr, nat>, chunk: nat)
    requires 0 < chunk
    ensures forall e :: e in WayOut(m, chunk) ==> e.amount <= chunk
    decreases |m|
  {
    if m == map[] {
    } else {
      var k := AnyKey(m);
      Dropping(m, k);
      WayOutChunks(m - {k}, chunk);
      ChunksAsk(k, m[k], chunk, [], k);
    }
  }

  /** There is at most one burn for each chunk that fits the total, and one more for each balance. */
  lemma {:induction false} WayOutCounts(m: map<Addr, nat>, chunk: nat)
    requires 0 < chunk
    ensures (|WayOut(m, chunk)| - |m|) * chunk <= Sum(m)
    decreases |m|
  {
    if m == map[] {
    } else {
      var k := AnyKey(m);
      var first, rest := InChunks(k, m[k], chunk), WayOut(m - {k}, chunk);
      Dropping(m, k);
      WayOutCounts(m - {k}, chunk);
      ChunkCount(k, m[k], chunk);
      CountsAdd(|first| - 1, |rest| - |m - {k}|, chunk);
    }
  }

  lemma WayOutIsPriced(m: map<Addr, nat>, chunk: nat, rate: nat)
    requires 0 < chunk && BurnPay(chunk, rate).Ok?
    ensures Priced(WayOut(m, chunk), rate)
  {
    var exits := WayOut(m, chunk);
    WayOutChunks(m, chunk);
    forall i | 0 <= i < |exits| ensures BurnPay(exits[i].amount, rate).Ok? {
      assert exits[i] in exits;
      LessIsPriced(exits[i].amount, chunk, rate);
    }
  }

  /** Burns of the whole supply leave none and pay its worth, short of less than one LSD each. */
  lemma FullExitPays(w: World, exits: seq<Exit>)
    requires CanPay(w) && Total(Amounts(exits)) == w.c.token.supply
    requires Priced(exits, w.rate) && Covers(w.c.token, exits)
    ensures var w' := Run(w, Burns(exits));
            && CanPay(w') && w'.c.token.supply == 0
            && w.held - w'.held <= w.c.token.supply * ONE / w.rate
            && (exits != [] ==> w.c.token.supply * ONE / w.rate - |exits| < w.held - w'.held)
  {
    EveryoneCanExit(w, exits);
    SplitBurn(Amounts(exits), w.rate);
  }

  /** Every backed state can be left by everyone, whatever is held and issued: burning the balances in
      chunks of any priced size succeeds throughout and ends with no supply. Against the exact worth of
      the supply it pays too little by less than one LSD a burn, of which there are at most as many as
      holders and as chunks fit the supply. */
  lemma EveryoneHasAWayOut(w: World, chunk: nat)
    requires CanPay(w) && 0 < chunk && BurnPay(chunk, w.rate).Ok?
    ensures var exits := WayOut(w.c.token.balances, chunk);
            var w' := Run(w, Burns(exits));
            && CanPay(w') && w'.c.token.supply == 0
            && w.held - w'.held <= w.c.token.supply * ONE / w.rate
            && (exits != [] ==> w.c.token.supply * ONE / w.rate - |exits| < w.held - w'.held)
            && (|exits| - |w.c.token.balances|) * chunk <= w.c.token.supply
  {
    var exits := WayOut(w.c.token.balances, chunk);
    WayOutIsHeld(w.c.token, chunk);
    WayOutCounts(w.c.token.balances, chunk);
    WayOutIsPriced(w.c.token.balances, chunk, w.rate);
    FullExitPays(w, exits);
  }
}
