/** When the decompound arithmetic goes through, and what it leaves behind. */
module PlainDecompound {
  import opened FixedPoint
  import opened Cw20
  import opened Lsd
  import opened Pricing
  import opened Cut
  import opened PlainSpec

  /** The exact inputs on which the rewards are computed without aborting. */
  lemma AccruedExactly(held: nat, supply: nat, rate: nat)
    requires Backed(held, supply, rate)
    ensures Accrued(held, supply, rate).Ok? <==>
              0 < rate && held * ONE <= MAX128 && held * rate <= MAX128 && !CutUnderflows(held, supply, rate)
    ensures Accrued(held, supply, rate).Err? ==> Accrued(held, supply, rate).error == Panic
  {
    if 0 < rate {
      RewardCounted(held, supply, rate);
      FloorGe(held * rate, ONE, supply + rate / ONE);
      GrossFits(held, supply, rate);
    }
  }

  /** A bound on the rate is needed: here a backed token within range aborts. */
  lemma UnderflowExists()
    ensures var held, supply, rate := ONE - 1, 2 * ONE - 3, 2 * ONE + 1;
            Backed(held, supply, rate) && held * ONE <= MAX128 && held * rate <= MAX128
            && Accrued(held, supply, rate) == Err(Panic)
  {}

  /** What a successful computation takes leaves the token backed, by less than two LSD. */
  lemma AccruedLeavesBacked(held: nat, supply: nat, rate: nat)
    requires Accrued(held, supply, rate).Ok?
    ensures var left := held - Accrued(held, supply, rate).value.lsd;
            0 <= left && Backed(left, supply, rate) && (left - 2) * rate < supply * ONE
  {
    var n := Needed(supply, rate);
    GrossFits(held, supply, rate);
    NeededTight(supply, rate);
    if Gross(held, supply, rate).lsd == 0 {
      MulLe(n - 2, n - 1, rate);
    } else {
      assert (n + 1) * rate == n * rate + rate;
    }
  }

  /** The rewards are the most LSD that can be spared, and the most underlying tokens by which the worth of
      the holding exceeds the supply; less one LSD and its whole worth when any can be spared. */
  lemma TakesTheMost(held: nat, supply: nat, rate: nat)
    requires Accrued(held, supply, rate).Ok?
    ensures var r, cut := Accrued(held, supply, rate).value, Spared(held, supply, rate, 1);
            var lsd, luna := r.lsd + (if cut then 1 else 0), r.luna + (if cut then rate / ONE else 0);
            && Spared(held, supply, rate, lsd) && !Spared(held, supply, rate, lsd + 1)
            && (luna + supply) * ONE <= held * rate < (luna + 1 + supply) * ONE
  {
    var gross := Gross(held, supply, rate);
    GrossIsMost(held, supply, rate, 1);
    GrossIsMost(held, supply, rate, gross.lsd);
    GrossIsMost(held, supply, rate, gross.lsd + 1);
    GrossIsMost(held, supply, rate, gross.luna);
    GrossIsMost(held, supply, rate, gross.luna + 1);
  }

  /** The whole effect of a decompound transaction, as a change of the LSD held. */
  function AfterDecompound(held: nat, supply: nat, rate: nat): Result<nat> {
    match Accrued(held, supply, rate)
    case Err(NoRewards) => Ok(held)
    case Err(e) => Err(e)
    case Ok(rewards) => if rewards.lsd <= held then Ok(held - rewards.lsd) else Err(TransferFailed)
  }

  /** A token that is not backed gives nothing. A backed one stays backed and keeps less than two LSD of
      excess. */
  lemma AfterOnce(held: nat, supply: nat, rate: nat)
    requires AfterDecompound(held, supply, rate).Ok?
    ensures var left := AfterDecompound(held, supply, rate).value;
            && left <= held
            && if Backed(held, supply, rate) then Backed(left, supply, rate) && (left - 2) * rate < supply * ONE
               else left == held
  {
    if Backed(held, supply, rate) {
      AccruedLeavesBacked(held, supply, rate);
      AccruedExactly(held, supply, rate);
    }
  }

  /** It then has nothing more to give: asking again gives nothing, or aborts. */
  lemma AfterTwice(held: nat, supply: nat, rate: nat, left: nat)
    requires Backed(held, supply, rate) && AfterDecompound(held, supply, rate) == Ok(left)
    ensures AfterDecompound(left, supply, rate) == if CutUnderflows(left, supply, rate) then Err(Panic) else Ok(left)
  {
    AfterOnce(held, supply, rate);
    AccruedExactly(held, supply, rate);
    AccruedExactly(left, supply, rate);
    MulLe(left, held, rate);
    GrossFits(held, supply, rate);
    GrossFits(left, supply, rate);
  }

  lemma DecompoundEffect(w: World, info: Info, spendable: nat, to: Option<Addr>)
    ensures var before := w.held + Attached(w.c.lsd, info.funds);
            var after := AfterDecompound(before, w.c.token.supply, w.rate);
            Transact(w, info, spendable, Decompound(to)) ==
            if before > MAX128 then Err(Panic)
            else if info.sender != w.c.hub then Err(Unauthorized)
            else if after.Err? then Err(after.error)
            else Ok(w.(held := after.value))
  {}

  /** A decompound goes through exactly when the hub calls, the holding can be priced and, for a backed token,
      the rate is positive and the cut does not underflow. */
  lemma DecompoundExactly(w: World, info: Info, spendable: nat, to: Option<Addr>)
    ensures var before := w.held + Attached(w.c.lsd, info.funds);
            Transact(w, info, spendable, Decompound(to)).Ok? <==>
              && info.sender == w.c.hub && before * ONE <= MAX128 && before * w.rate <= MAX128
              && (Backed(before, w.c.token.supply, w.rate) ==>
                    0 < w.rate && !CutUnderflows(before, w.c.token.supply, w.rate))
  {
    var before := w.held + Attached(w.c.lsd, info.funds);
    DecompoundEffect(w, info, spendable, to);
    if Backed(before, w.c.token.supply, w.rate) {
      AccruedExactly(before, w.c.token.supply, w.rate);
      if Accrued(before, w.c.token.supply, w.rate).Ok? { AccruedLeavesBacked(before, w.c.token.supply, w.rate); }
    }
  }

  /** A decompound transaction touches nothing but the LSD held; it takes only from a backed token, and
      leaves it backed with less than two LSD of excess. */
  lemma DecompoundTakes(w: World, info: Info, spendable: nat, to: Option<Addr>, w': World)
    requires Transact(w, info, spendable, Decompound(to)) == Ok(w')
    ensures w' == w.(held := w'.held) && info.sender == w.c.hub
    ensures var before := w.held + Attached(w.c.lsd, info.funds);
            w'.held <= before <= MAX128 && AfterDecompound(before, w.c.token.supply, w.rate) == Ok(w'.held)
            && if Backed(before, w.c.token.supply, w.rate)
               then Backed(w'.held, w.c.token.supply, w.rate) && (w'.held - 2) * w.rate < w.c.token.supply * ONE
               else w'.held == before
  {
    DecompoundEffect(w, info, spendable, to);
    AfterOnce(w.held + Attached(w.c.lsd, info.funds), w.c.token.supply, w.rate);
  }

  /** A second decompound at the same rate and supply moves nothing, and aborts only when the cut of
      one LSD underflows. */
  lemma DecompoundAgain(before: nat, w': World, again: Info, spendable: nat, to: Option<Addr>)
    requires AfterDecompound(before, w'.c.token.supply, w'.rate) == Ok(w'.held)
    requires before <= MAX128 && Backed(before, w'.c.token.supply, w'.rate)
    requires Attached(w'.c.lsd, again.funds) == 0
    ensures Transact(w', again, spendable, Decompound(to)) ==
            if again.sender != w'.c.hub then Err(Unauthorized)
            else if CutUnderflows(w'.held, w'.c.token.supply, w'.rate) then Err(Panic)
            else Ok(w')
  {
    DecompoundEffect(w', again, spendable, to);
    AfterTwice(before, w'.c.token.supply, w'.rate, w'.held);
  }
}
