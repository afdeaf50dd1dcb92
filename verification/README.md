# LSD wrapper tokens: a verified model

A wrapper token holds a liquid staking derivative (LSD) and issues CW20 tokens against it. Two contracts
do this. The *plain* wrapper (`packages/cavern_lsd_wrapper_token`) mints and burns at the LSD's rate in
underlying tokens. The *rate-limited* wrapper (`packages/cavern_lsd_wrapper_token_with_limit`) mints and
burns at the floored quotient of its supply and its holding, and keeps a ledger that limits how fast
rewards may be taken. In both, `decompound` sends the LSD that is not needed to keep one underlying token
behind every wrapper token to the hub's recipient.

Everything is computed in 18-digit decimals whose products and quotients are floored and whose results
must fit 128 bits. The project models that arithmetic exactly, aborts included, and proves what survives
the rounding: over one call, over pairs of calls, and over whole runs.

## Layout

| file | content |
|---|---|
| `FixedPoint.dfy` | decimal operations, aborts, and the few facts about floors that all proofs use |
| `Cw20.dfy` | a CW20 token: balances, allowances and supply, its creation with initial balances, conservation |
| `Lsd.dfy` | calls, deposits (attached coin or pulled CW20), transfers and their delivery, events of a run |
| `Pricing.dfy`, `Cut.dfy` | what the decimal pipelines compute, as single integer formulas; when the cut of one LSD underflows |
| `Querier.dfy` | the query and the reward computation that both contracts start from |
| `Messages.dfy` | whose tokens a message may move, and what others can spend of an owner's |
| `PlainSpec.dfy`, `PlainWrapper.dfy` | the plain wrapper as a state machine, and the contract as a class proved against it |
| `PlainAccounts.dfy`, `PlainTrading.dfy` | whose tokens and LSD the plain wrapper's calls move, and when minting and burning go through |
| `PlainDecompound.dfy`, `PlainBacking.dfy`, `PlainExit.dfy` | its decompound, its backing over whole runs, and leaving it |
| `LimitedSpec.dfy`, `LimitedWrapper.dfy`, `LimitedAccounts.dfy` | the same for the rate-limited wrapper: state machine, class, accounts |
| `LimitedDecompound.dfy`, `LimitedLedger.dfy` | the rate-limited decompound, its forecast, and its ledger over whole runs |
| `LimitedShares.dfy`, `LimitedTrading.dfy`, `LimitedBacking.dfy` | minting and burning at the share price: single trades and round trips, runs of trades, and the backing over any run |

The classes follow the source: stored fields that the handlers update, decimal steps that can abort
early. Each handler is proved to give the response and leave the storage of the integer specification,
and to leave the storage untouched when it fails. The theorems are about the specification. A `World` is
a storage with the LSD held, the LSD rate and the block time; an event is a call, a move of the rate, a
tick of the clock, or LSD sent to the wrapper outside any call. A call is a transaction: attached coins
arrive, the contract runs, its transfer is delivered, and any failure leaves the world as it was.

Notation: ONE is 10^18, L the LSD held, S the supply, r the rate in atomics, B = L·r, c = B − S·ONE the
surplus, *backed* means c ≥ 0; M is the yearly limit, R and T the ledger's sum and seconds, cap(T) the
ratio allowed over T seconds, m what remains of it.

## Results worth knowing

- **The plain decompound can abort on a backed token.** It does so exactly when c·ONE > r·(ONE − 1) and
  c < ONE·⌊r/ONE⌋: the surplus counts as one LSD of reward, but its whole underlying tokens are fewer than
  the subtracted worth of one LSD. Rates below 2, rates whose fraction in atomics is at least their whole
  part, and holdings with (L+1)·⌊r/ONE⌋ ≤ ONE are safe; `UnderflowExists` gives an input that is not.
- **The cap never makes this worse,** although both rewards are capped by separate floors.
- **The recorded ratio bounds what really leaves.** Over any run, the shares of the holding sent away by
  decompounds add up to at most cap(T) plus one small slack a decompound, and two atomics each for
  holdings worth 2·10^18 underlying tokens or more.
- **The forecast is not a lower bound.** The comment at `querier.rs:52-53` of the rate-limited package
  promises the value with the decompound applied. The contract takes the remaining ratio m as a share of
  the whole backing, the forecast subtracts it as a share of one underlying token, so a token worth more
  than 1 can end below its forecast. The forecast is max(1, rate − m) and a decompound comes down to it up
  to two LSD; `ForecastIsKept` says exactly when it stays at or above it.
- **The floored share price favours whoever burns.** Whether a burn gives anything away is decided by two
  remainders, `Fair`, and a run of trades never dilutes if and only if all its burns are fair; what the
  others give away is bounded by `Loss`, whatever their size. A burn can take a backed token below one
  underlying token: `BurnKeepsBackingExactly` says when, and `RunKeepsBacking` which runs, over all calls
  and rates, stay backed throughout. `RoundTripExactly` says when a mint followed by a burn profits, the
  first mint into a donated holding included, and `SoleHolderDrains` when the last holder can leave. Each
  has a concrete input beyond its condition.
- **Everyone can leave the plain wrapper.** In a backed state a burn within the balance fails only if the
  arithmetic on the burned amount itself overflows. Burning in chunks of any amount that does not,
  `EveryoneHasAWayOut` empties every backed state at a positive rate, and pays the exact worth of the
  supply but for less than one LSD a burn. From rate one up every amount that fits a decimal, 3.4·10^20,
  can be a chunk; at any positive rate 340 can.
- **Owners who make no calls lose only what they granted.** Over any run of either wrapper the tokens such an
  owner loses are at most what it had allowed others to spend, and every one of them is taken off that.
  In a call LSD moves between the wrapper and the caller alone, or goes to the recipient the hub names.
- **A decompound takes the most it may.** One more LSD than `TakesTheMost` names could not be spared or would
  exceed the allowed share, and the record is the floored share of what is booked.
- **The plain wrapper never adds to a deficit.** While rates do not fall, no run makes a token lack more
  than it lacks at its start, so the tokens given out at instantiation bound what can ever be missing.

Where comments or other files disagree with the code, the model follows the code. The comment at
`handler.rs:44` of the rate-limited package speaks of 1 Luna per burned token, but the burn pays at the
share price. `contracts/spectrum-wrapper/src/tests/test.rs:144-184` expects minting at the LSD rate, but
`handler.rs:128-129` mints at the share price. The package READMEs describe reward-contract messages that
the handlers do not send.

## Model

| member | source | states |
|---|---|---|
| FixedPoint.PricedAmount | packages/cavern_lsd_wrapper_token/src/handler.rs:43-45 | decimal conversion, division by a decimal and truncation, three floors, give the one floor of the exact quotient |
| Cw20.CreateHolds | packages/cavern_lsd_wrapper_token/src/contract.rs:54-71 | a token is created exactly when no address is listed twice and the balances fit together; they are then its only balances and their sum its supply |
| Cw20.TransferConserves | packages/cavern_lsd_wrapper_token/src/handler.rs:21-29 | a transfer succeeds exactly when covered, moves the amount between the two balances, changes no other balance nor the supply |
| Cw20.MintCreates | packages/cavern_lsd_wrapper_token/src/handler.rs:107 | a mint succeeds exactly when the supply fits, and credits only the recipient; supply stays the sum of balances |
| Cw20.BurnDestroys | packages/cavern_lsd_wrapper_token/src/handler.rs:59 | a burn succeeds exactly when covered, and debits only the burner; supply stays the sum of balances |
| Cw20.SpendersAreAllowed | packages/cavern_lsd_wrapper_token/src/handler.rs:155-181 | transfer-from and burn-from succeed exactly with balance and allowance, use up exactly the amount of that one allowance, and are otherwise the owner's own transfer or burn |
| Cw20.OwnersAllow | packages/cavern_lsd_wrapper_token/src/contract.rs:107-116 | allowances are set by their owner for others only, raised by exactly the amount if it fits, cut down to nothing at most; no balance and no other allowance changes |
| Lsd.DepositArrives | packages/wrapper_implementations/src/coin.rs:83-102 | an accepted deposit raises the LSD held by at least the amount asked, excess coins kept, and by exactly it when pulled |
| Lsd.DepositExactly | packages/wrapper_implementations/src/coin.rs:83-102 | a deposit is accepted and arrives exactly when it asks for no more than the one attached coin of the LSD, or than may be pulled; exactly that coin suffices |
| Lsd.AttachedAdds | packages/wrapper_implementations/src/coin.rs:83-98 | attached coins add up, those of other denominations not counting |
| Lsd.MessagesKeepToken | packages/cavern_lsd_wrapper_token/src/contract.rs:85-139 | every message keeps supply and balances in step; the supply moves only by mints and burns, by exactly their amount |
| Messages.MayMoveExactly | packages/cavern_lsd_wrapper_token/src/contract.rs:85-139 | a message goes through at the token exactly when the payer has the tokens and, for a spending one, allowed the caller as many; created tokens fit; owners change allowances of others; and it is not an administrative one |
| Messages.SpendingIsAllowed | packages/cavern_lsd_wrapper_token/src/handler.rs:155-194 | a spending message is the owner's own one, on an allowance that it uses up by the amount |
| Messages.BalancesMove | packages/cavern_lsd_wrapper_token/src/contract.rs:85-139 | every message takes what it moves from its payer and gives it to its payee, and changes no other balance |
| Messages.AllowancesMove | packages/cavern_lsd_wrapper_token/src/contract.rs:85-139 | every allowance changes only by its owner's own messages and by its spender's use of it |
| Messages.OthersSpendGrants | packages/cavern_lsd_wrapper_token/src/handler.rs:155-194 | the messages of others take an owner's tokens only out of what it granted them |
| Pricing.FairPrice | packages/cavern_lsd_wrapper_token/src/handler.rs:42-45 | a burn pays at most its worth and a mint costs more than its worth, each missing it by at most one LSD |
| Pricing.FairYield | packages/cavern_lsd_wrapper_token/src/handler.rs:126-127 | LSD mints at most its worth, missing it by less than one token |
| Pricing.SharePriceIsFloored | packages/cavern_lsd_wrapper_token_with_limit/src/querier.rs:89-101 | the share price is the floored S·ONE/L, known exactly when it fits, and one when S or L is zero |
| Pricing.CurrentRateIsWorth | packages/cavern_lsd_wrapper_token/src/querier.rs:16-47 | the rate is the floored worth of one token, slashed or not, known exactly when L·ONE and L·r fit |
| Pricing.GuardIsExact | packages/cavern_lsd_wrapper_token/src/querier.rs:30-46 | the floored rate is below one if and only if B < S·ONE, so no slashing is missed or invented by rounding |
| Pricing.NeededTight | packages/cavern_lsd_wrapper_token/src/contract.rs:190-192 | the LSD set aside for the supply is less than one LSD above its exact worth and, by worth, at most ⌊r/ONE⌋ below it |
| Pricing.NeededIsLeast | packages/cavern_lsd_wrapper_token/src/contract.rs:190-192 | exactly the least LSD that leaves the supply short of less than one part in ONE of an LSD |
| Pricing.GrossIsMost | packages/cavern_lsd_wrapper_token/src/contract.rs:187-192 | the uncut rewards are the most LSD that can be spared and the most underlying tokens by which the worth exceeds the supply |
| Cut.RewardCounted | packages/cavern_lsd_wrapper_token/src/contract.rs:190-196 | an LSD reward is counted exactly when c·ONE > r·(ONE − 1) |
| Cut.SafeRates | packages/cavern_lsd_wrapper_token/src/contract.rs:196-199 | below rate 2, or when the rate's fraction in atomics is at least its whole part, the cut never underflows |
| Cut.SmallHoldings | packages/cavern_lsd_wrapper_token/src/contract.rs:196-199 | nor when (L+1)·⌊r/ONE⌋ ≤ ONE |
| Querier.GetCurrentExchangeRate | packages/cavern_lsd_wrapper_token/src/querier.rs:16-47 | the query's result and the four fields it fills; the backing it leaves is the exact product L·r |
| Querier.ComputeGrossRewards | packages/cavern_lsd_wrapper_token_with_limit/src/contract.rs:194-211 | the uncut rewards as integer formulas; none of the subtractions and products on the way can fail for a backed token |
| PlainWrapper.Wrapper.Instantiate | packages/cavern_lsd_wrapper_token/src/contract.rs:40-74 | a new contract with the hub, the LSD and the token of the initial balances, or the failure to create that token |
| PlainWrapper.Wrapper.ComputeAccruedRewards | packages/cavern_lsd_wrapper_token/src/contract.rs:168-205 | the decimal pipeline with its updates in place equals the specification, every abort included |
| PlainWrapper.Wrapper.BeforeBurn | packages/cavern_lsd_wrapper_token/src/handler.rs:31-46 | a burn pays ⌊a·ONE/r⌋ LSD to the caller, or aborts on overflow or a zero rate |
| PlainWrapper.Wrapper.ExecuteBurn | packages/cavern_lsd_wrapper_token/src/handler.rs:48-62 | response and new storage of a burn; storage unchanged on failure |
| PlainWrapper.Wrapper.ExecuteBurnAll | packages/cavern_lsd_wrapper_token/src/handler.rs:64-78 | burns the caller's whole balance, and does nothing for an empty one |
| PlainWrapper.Wrapper.ExecuteMint | packages/cavern_lsd_wrapper_token/src/handler.rs:80-110 | asks for ⌊a·ONE/r⌋ + 1 LSD and mints a tokens |
| PlainWrapper.Wrapper.ExecuteMintWith | packages/cavern_lsd_wrapper_token/src/handler.rs:112-142 | mints ⌊l·r/ONE⌋ tokens for l LSD |
| PlainWrapper.Wrapper.ExecuteBurnFrom | packages/cavern_lsd_wrapper_token/src/handler.rs:166-181 | burns the owner's tokens against the caller's allowance and pays the caller |
| PlainWrapper.Wrapper.ExecuteDecompound | packages/cavern_lsd_wrapper_token/src/contract.rs:222-273 | only the hub; a token that is not backed gives an empty success, other failures are passed on, a zero reward sends nothing |
| PlainWrapper.Wrapper.Execute | packages/cavern_lsd_wrapper_token/src/contract.rs:76-140 | every message changes the storage and answers as the state machine says; a send notifies the contract it credits, and minter, marketing and logo messages are refused |
| PlainAccounts.HandlerFollowsMessage | packages/cavern_lsd_wrapper_token/src/contract.rs:76-140 | every handler does to the token exactly what its message says, and nothing else to the storage |
| PlainAccounts.LsdIsExchanged | packages/cavern_lsd_wrapper_token/src/handler.rs:31-142 | what the transfer of a call moves leaves or reaches the wrapper in full, from or to the caller alone, or to the recipient the hub names |
| PlainAccounts.SpendingNeedsAllowance | packages/cavern_lsd_wrapper_token/src/handler.rs:155-194 | as a transaction, burn-from, transfer-from and send-from need the owner's allowance for the caller and use up exactly the amount of it |
| PlainAccounts.TokenCallExactly | packages/cavern_lsd_wrapper_token/src/contract.rs:85-139 | calls that neither mint, burn nor decompound go through exactly when the token permits it and the attached coins fit, and move no other LSD |
| PlainAccounts.QuietOwnersLoseGrantsOnly | packages/cavern_lsd_wrapper_token/src/contract.rs:76-140 | over any run an owner who makes no call loses at most what it had granted, and what is lost is taken off the grants |
| PlainTrading.BurnExactly | packages/cavern_lsd_wrapper_token/src/handler.rs:31-78 | a burn of any kind goes through exactly when the token permits it and the amount can be paid; it pays the most LSD that is worth no more |
| PlainTrading.MintExactly | packages/cavern_lsd_wrapper_token/src/handler.rs:80-110 | a mint goes through exactly when the supply fits and an obtainable deposit affords it; it creates the amount for the recipient, pulling the least LSD that is worth more |
| PlainTrading.MintWithExactly | packages/cavern_lsd_wrapper_token/src/handler.rs:112-142 | a mint-with goes through exactly when the LSD can be priced and had and the supply fits; it takes that LSD and creates the most tokens that are worth no more |
| PlainDecompound.AccruedExactly | packages/cavern_lsd_wrapper_token/src/contract.rs:177-199 | for a backed token the computation succeeds if and only if r > 0, L·ONE and L·r fit, and the cut does not underflow |
| PlainDecompound.UnderflowExists | packages/cavern_lsd_wrapper_token/src/contract.rs:196-199 | L = ONE − 1, S = 2·ONE − 3, r = 2·ONE + 1 is backed, in range, and aborts |
| PlainDecompound.AccruedLeavesBacked | packages/cavern_lsd_wrapper_token/src/contract.rs:194-199 | what is left is backed, and (L' − 2)·r < S·ONE |
| PlainDecompound.TakesTheMost | packages/cavern_lsd_wrapper_token/src/contract.rs:187-199 | the rewards are the most LSD that can be spared and the most underlying tokens over the supply, less one LSD and its whole worth when any can |
| PlainDecompound.DecompoundExactly | packages/cavern_lsd_wrapper_token/src/contract.rs:222-273 | a decompound goes through if and only if the hub calls, the holding can be priced and, when backed, r > 0 and the cut does not underflow |
| PlainDecompound.DecompoundTakes | packages/cavern_lsd_wrapper_token/src/contract.rs:243-260 | as a transaction: only the LSD held changes, and only of a backed token, which stays backed and within two LSD of its need |
| PlainDecompound.DecompoundAgain | packages/cavern_lsd_wrapper_token/src/contract.rs:222-273 | a second decompound at the same rate and supply moves nothing, and fails exactly on the underflow condition |
| PlainBacking.CallKeepsSurplus | packages/cavern_lsd_wrapper_token/src/handler.rs:31-181 | at a fixed rate no call but a decompound lowers c, backed or not, for either kind of LSD |
| PlainBacking.RunKeepsBacking | packages/cavern_lsd_wrapper_token/src/contract.rs:76-205 | over any run whose rates do not fall, what a token lacks to be backed never grows, so a backed token stays backed, its supply stays the sum of balances, and hub and LSD stay those of the instantiation |
| PlainBacking.ReachableIsBacked | packages/cavern_lsd_wrapper_token/src/contract.rs:40-205 | from instantiation a token never lacks more than the worth of its initial balances; it begins backed if and only if these are zero, and is then always backed |
| PlainExit.MintThenBurn | packages/cavern_lsd_wrapper_token/src/handler.rs:94-104 | minting and burning the same amount leaves at least one LSD with the wrapper, exactly one when it is pulled, and restores supply and balance |
| PlainExit.YieldThenPay | packages/cavern_lsd_wrapper_token/src/handler.rs:126-139 | burning what l LSD minted pays at most l and, at r ≥ ONE, at least l − 1 |
| PlainExit.MintWithThenBurn | packages/cavern_lsd_wrapper_token/src/handler.rs:112-142 | as two transactions, for either kind of LSD: the wrapper loses none, keeps at most one of what it pulled at r ≥ ONE, and the supply is restored |
| PlainExit.SplitBurn | packages/cavern_lsd_wrapper_token/src/handler.rs:42-45 | k burns pay no more than one of the same total, and less than k LSD less |
| PlainExit.BurnSucceeds | packages/cavern_lsd_wrapper_token/src/handler.rs:31-62 | in a backed state with r > 0 a holder's burn of any part of their balance succeeds if and only if its price arithmetic does, for its full floored worth, and the state stays such |
| PlainExit.PartIsPriced | packages/cavern_lsd_wrapper_token/src/handler.rs:42-45 | it goes through for every part of the supply when L·ONE and L·r fit 128 bits |
| PlainExit.PricedFromRateOne | packages/cavern_lsd_wrapper_token/src/handler.rs:42-45 | at r ≥ ONE the price arithmetic goes through for every amount that fits a decimal |
| PlainExit.SmallAmountsArePriced | packages/cavern_lsd_wrapper_token/src/handler.rs:42-45 | at every positive rate the price arithmetic goes through for up to 340 tokens at a time |
| PlainExit.EveryoneCanExit | packages/cavern_lsd_wrapper_token/src/handler.rs:31-62 | any sequence of burns of priced amounts within the balances succeeds throughout: the LSD held and the supply end lower by exactly the sums |
| PlainExit.EveryoneHasAWayOut | packages/cavern_lsd_wrapper_token/src/handler.rs:31-62 | whatever is held and issued, burning the balances of a backed state with r > 0 in chunks of any priced size succeeds throughout, ends with no supply, and pays at most S·ONE/r and less than one LSD a burn below it; the burns exceed the holders by at most the chunks in S |
| PlainExit.LastOneOut | packages/cavern_lsd_wrapper_token/src/handler.rs:64-78 | once every holder has called burn-all, each balance being priced, in any order, the supply is zero |
| LimitedWrapper.Wrapper.Instantiate | packages/cavern_lsd_wrapper_token_with_limit/src/contract.rs:40-90 | the same, with an empty ledger dated at the block time |
| LimitedWrapper.Wrapper.ComputeAccruedRewards | packages/cavern_lsd_wrapper_token_with_limit/src/contract.rs:186-261 | the decimal pipeline with its two caps, the cut and the rate decrease equals the specification, every abort and the cap error included |
| LimitedWrapper.Wrapper.GetExpectedExchangeRate | packages/cavern_lsd_wrapper_token_with_limit/src/querier.rs:54-84 | the forecast query equals its formula |
| LimitedWrapper.Wrapper.GetLsdWrapperExchangeRate | packages/cavern_lsd_wrapper_token_with_limit/src/querier.rs:89-101 | the share price ⌊S·ONE/L⌋, one when either is zero |
| LimitedWrapper.Wrapper.BeforeBurn | packages/cavern_lsd_wrapper_token_with_limit/src/handler.rs:34-50 | a burn pays ⌊a·ONE/price⌋ LSD to the caller |
| LimitedWrapper.Wrapper.ExecuteBurn | packages/cavern_lsd_wrapper_token_with_limit/src/handler.rs:52-66 | response and new storage of a burn; storage unchanged on failure |
| LimitedWrapper.Wrapper.ExecuteBurnAll | packages/cavern_lsd_wrapper_token_with_limit/src/handler.rs:68-82 | burns the caller's whole balance, and does nothing for an empty one |
| LimitedWrapper.Wrapper.ExecuteMint | packages/cavern_lsd_wrapper_token_with_limit/src/handler.rs:84-113 | asks for ⌊a·ONE/price⌋ + 1 LSD and mints a tokens |
| LimitedWrapper.Wrapper.ExecuteMintWith | packages/cavern_lsd_wrapper_token_with_limit/src/handler.rs:115-144 | mints ⌊l·price/ONE⌋ tokens for l LSD |
| LimitedWrapper.Wrapper.ExecuteBurnFrom | packages/cavern_lsd_wrapper_token_with_limit/src/handler.rs:168-183 | burns the owner's tokens against the caller's allowance and pays the caller |
| LimitedWrapper.Wrapper.ExecuteDecompound | packages/cavern_lsd_wrapper_token_with_limit/src/contract.rs:278-346 | only the hub, and not twice at one block time; the ledger is written together with the reward, or not at all |
| LimitedWrapper.Wrapper.Execute | packages/cavern_lsd_wrapper_token_with_limit/src/contract.rs:92-156 | every message changes the storage and answers as the state machine says; a send notifies the contract it credits, and minter, marketing and logo messages are refused |
| LimitedAccounts.HandlerFollowsMessage | packages/cavern_lsd_wrapper_token_with_limit/src/contract.rs:92-156 | every handler does to the token exactly what its message says; only a decompound changes more, the ledger |
| LimitedAccounts.LsdIsExchanged | packages/cavern_lsd_wrapper_token_with_limit/src/handler.rs:34-144 | what a call moves leaves or reaches the wrapper in full, from or to the caller alone, or to the recipient the hub names |
| LimitedAccounts.SpendingNeedsAllowance | packages/cavern_lsd_wrapper_token_with_limit/src/handler.rs:157-196 | as a transaction, burn-from, transfer-from and send-from need the owner's allowance for the caller and use up exactly the amount of it |
| LimitedAccounts.TokenCallExactly | packages/cavern_lsd_wrapper_token_with_limit/src/contract.rs:103-155 | calls that neither mint, burn nor decompound go through exactly when the token permits it, and move no LSD |
| LimitedAccounts.QuietOwnersLoseGrantsOnly | packages/cavern_lsd_wrapper_token_with_limit/src/contract.rs:92-156 | over any run an owner who makes no call loses at most what it had granted, and what is lost is taken off the grants |
| LimitedDecompound.CapPreservesCut | packages/cavern_lsd_wrapper_token_with_limit/src/contract.rs:241-252 | when capped LSD rewards are positive, the capped underlying rewards stand the cut of one LSD if and only if the uncapped ones do |
| LimitedDecompound.LimitedExactly | packages/cavern_lsd_wrapper_token_with_limit/src/contract.rs:207-254 | the computation succeeds if and only if the limit is computable and the cut, where made, does not underflow |
| LimitedDecompound.DecreaseWithinCap | packages/cavern_lsd_wrapper_token_with_limit/src/contract.rs:232-254 | the recorded decrease is at most m, after all floors |
| LimitedDecompound.TakesTheMost | packages/cavern_lsd_wrapper_token_with_limit/src/contract.rs:207-252 | with a limit or without, the LSD and the underlying tokens taken are the most that the supply spares and the allowance permits, less one LSD and its whole worth when any |
| LimitedDecompound.DecreaseIsBooked | packages/cavern_lsd_wrapper_token_with_limit/src/contract.rs:254-259 | the recorded decrease is the booked share of the backing, floored: decrease·B ≤ luna·ONE² < (decrease + 1)·B |
| LimitedDecompound.UnlimitedIsPlain | packages/cavern_lsd_wrapper_token_with_limit/src/contract.rs:186-261 | without a limit the rewards and failures are those of the plain wrapper, but for an abort when nothing is held |
| LimitedDecompound.LimitedLeavesBacked | packages/cavern_lsd_wrapper_token_with_limit/src/contract.rs:241-252 | for every cap, clock and rate the holding left is backed |
| LimitedDecompound.SentMatchesRecord | packages/cavern_lsd_wrapper_token_with_limit/src/contract.rs:207-259 | the LSD sent is worth less than the recorded underlying reward plus one token and ⌊r/ONE⌋, hence plus two tokens for r ≤ ONE² |
| LimitedDecompound.RecordMatchesSent | packages/cavern_lsd_wrapper_token_with_limit/src/contract.rs:207-259 | the other side: luna·ONE < (lsd + 1)·r + ONE and luna·ONE ≤ (lsd + 2)·r |
| LimitedDecompound.ShareWithinRecord | packages/cavern_lsd_wrapper_token_with_limit/src/contract.rs:241-259 | the share ⌊lsd·ONE/L⌋ sent is at most the recorded decrease plus 1 + ⌊(ONE + ⌊r/ONE⌋)·ONE/B⌋ |
| LimitedDecompound.SlackIsSmall | packages/cavern_lsd_wrapper_token_with_limit/src/contract.rs:241-259 | that slack is at most 1 + ⌊2·ONE²/B⌋ for r ≤ ONE², and at most 2 when also B ≥ 2·ONE² |
| LimitedDecompound.LimitedLeaves | packages/cavern_lsd_wrapper_token_with_limit/src/contract.rs:232-252 | the backing left is at least both S·ONE and B·(ONE − m)/ONE, and at most two LSD above one of them |
| LimitedDecompound.ForecastIsClamped | packages/cavern_lsd_wrapper_token_with_limit/src/querier.rs:63-81 | for a backed token with a limit the forecast is max(ONE, rate − m) and at most the rate |
| LimitedDecompound.ForecastIsWorth | packages/cavern_lsd_wrapper_token_with_limit/src/querier.rs:63-83 | without a limit, and for a slashed token, the forecast is the floored worth of one token and known exactly when L·ONE and L·r fit |
| LimitedDecompound.SentExactly | packages/cavern_lsd_wrapper_token_with_limit/src/contract.rs:186-261 | the LSD of the rewards as one formula of L, S, r and m |
| LimitedDecompound.ForecastIsReached | packages/cavern_lsd_wrapper_token_with_limit/src/querier.rs:54-84 | after a decompound at the same instant L'·r ≤ S·(forecast + 1) + 2·r if and only if there are tokens or at most two LSD are left |
| LimitedDecompound.ForecastOfNothing | packages/cavern_lsd_wrapper_token_with_limit/src/querier.rs:54-84 | an input without supply that leaves 91 LSD and misses the forecast |
| LimitedDecompound.ForecastIsKept | packages/cavern_lsd_wrapper_token_with_limit/src/querier.rs:52-84 | the exact LSD sent, and L'·r ≥ S·forecast if and only if B < S·(m + ONE) or sent·r ≤ m·S + B mod S, all known before the call |
| LimitedDecompound.ForecastIsKeptIf | packages/cavern_lsd_wrapper_token_with_limit/src/querier.rs:52-84 | m·(B − S·ONE) ≤ r·ONE is enough for the forecast to be kept |
| LimitedDecompound.ForecastIsNoLowerBound | packages/cavern_lsd_wrapper_token_with_limit/src/querier.rs:52-53 | beyond it the forecast is missed: a valid token worth 2 with m = 0.1 is forecast at 1.9 and ends at 1.8 |
| LimitedLedger.CapIsYearly | packages/cavern_lsd_wrapper_token_with_limit/src/contract.rs:220-232 | k whole years allow exactly k·M; T seconds allow at most M·T/year, short of less than one atomic and M/ONE, and exactly M times the floored year part |
| LimitedLedger.CapNeverExceeded | packages/cavern_lsd_wrapper_token_with_limit/src/contract.rs:222-238 | in every state with the ledger invariant the subtraction of the recorded sum cannot fail, and m is cap over the wrapper's life less R |
| LimitedLedger.CapErrorUnreachable | packages/cavern_lsd_wrapper_token_with_limit/src/contract.rs:230-238 | no call in any state with the ledger invariant fails with the error of the exceeded cap |
| LimitedLedger.LedgerWrites | packages/cavern_lsd_wrapper_token_with_limit/src/contract.rs:301-333 | the ledger changes only with rewards computed, strictly later than before; the decompound of a token that is not backed changes nothing at all |
| LimitedLedger.RunKeepsLedger | packages/cavern_lsd_wrapper_token_with_limit/src/contract.rs:310-324 | over all runs T is the seconds between instantiation and the last decompound, and R ≤ cap(T) |
| LimitedLedger.ReachableLedger | packages/cavern_lsd_wrapper_token_with_limit/src/contract.rs:40-90 | the same for every state reachable from instantiation, whatever the initial balances; limit and hub stay as instantiated |
| LimitedLedger.RunTakesWithinRecord | packages/cavern_lsd_wrapper_token_with_limit/src/contract.rs:207-259 | over any run the shares sent away are at most what the ledger recorded plus the slacks |
| LimitedLedger.ExtractionIsCapped | packages/cavern_lsd_wrapper_token_with_limit/src/contract.rs:207-324 | from instantiation, whatever the schedule, the shares sent away sum to at most cap(T) plus the slacks |
| LimitedLedger.ExtractionIsCappedClosely | packages/cavern_lsd_wrapper_token_with_limit/src/contract.rs:207-324 | with two atomics a decompound as the slack, for rates up to ONE² and backings from 2·ONE² |
| LimitedLedger.ReachableForecast | packages/cavern_lsd_wrapper_token_with_limit/src/querier.rs:71-81 | in every state with the ledger invariant the forecast is the clamped difference, with m taken over the wrapper's whole life |
| LimitedLedger.ReachableForecastExactly | packages/cavern_lsd_wrapper_token_with_limit/src/querier.rs:54-84 | the forecast is known if and only if the holding can be priced and, for a backed token with a limit, the cap and the rate with R fit |
| LimitedLedger.ReachableAccrued | packages/cavern_lsd_wrapper_token_with_limit/src/contract.rs:186-261 | with a limit or without, the rewards are computed if and only if L and r are positive, L·ONE, L·r and the cap with its shares, where there is one, fit 128 bits, and the cut, where made, does not underflow |
| LimitedLedger.ReachableDecompound | packages/cavern_lsd_wrapper_token_with_limit/src/contract.rs:278-346 | the decompound of a backed token goes through if and only if the hub calls, the block time has moved on, the rewards are computed and the new sum fits 128 bits, which a limit guarantees |
| LimitedLedger.SlashedDecompound | packages/cavern_lsd_wrapper_token_with_limit/src/contract.rs:298-305 | the decompound of a slashed token goes through if and only if the hub calls and the holding can be priced, and changes nothing |
| LimitedShares.MintAboveShare | packages/cavern_lsd_wrapper_token_with_limit/src/handler.rs:97-99 | a minted amount costs more LSD than its share of the holding; less one LSD, at most that share and (d−1)·L/ONE, weighed by S |
| LimitedShares.YieldWithinShare | packages/cavern_lsd_wrapper_token_with_limit/src/handler.rs:128-129 | LSD mints at most its share of the supply and misses it by less than one token and l/ONE |
| LimitedShares.BurnAgainstShare | packages/cavern_lsd_wrapper_token_with_limit/src/handler.rs:45-48 | a payout p obeys p·S·ONE ≤ a·L·ONE + p·L; it is within the share if and only if the two remainders say so, and always when p·L ≤ ONE |
| LimitedShares.BurnExactly | packages/cavern_lsd_wrapper_token_with_limit/src/handler.rs:34-82 | a burn of any kind goes through exactly when the token permits it and the amount can be paid at the share price; it pays the most LSD that is worth no more |
| LimitedShares.MintExactly | packages/cavern_lsd_wrapper_token_with_limit/src/handler.rs:84-113 | a mint goes through exactly when the supply fits and the LSD that may be pulled affords it; it pulls the least LSD that is worth more and creates the amount for the recipient |
| LimitedShares.MintWithExactly | packages/cavern_lsd_wrapper_token_with_limit/src/handler.rs:115-144 | a mint-with goes through exactly when the LSD may be pulled and the supply fits; it pulls that LSD and creates the most tokens that are worth no more |
| LimitedShares.MintsWithinShare | packages/cavern_lsd_wrapper_token_with_limit/src/handler.rs:84-144 | as transactions on a live wrapper: both sides of what a mint costs and of what a mint-with yields, against the share of holding and supply |
| LimitedShares.RoundTripPays | packages/cavern_lsd_wrapper_token_with_limit/src/handler.rs:34-50 | tokens bought at or above their share pay at most their cost d when (d+1)·L ≤ S·ONE, and when p·L ≤ S·ONE |
| LimitedShares.RoundTripExactly | packages/cavern_lsd_wrapper_token_with_limit/src/handler.rs:34-144 | for any mint, the first into a donated holding included, and the burn of its yield as two transactions: the wrapper ends with no less LSD if and only if a·ONE < (d+1)·(price after the mint) |
| LimitedShares.FirstMinterTakesAll | packages/cavern_lsd_wrapper_token_with_limit/src/querier.rs:89-101 | of 100 LSD sent to an empty wrapper a mint of ten tokens and their burn leave nothing |
| LimitedShares.MintThenBurn | packages/cavern_lsd_wrapper_token_with_limit/src/handler.rs:84-144 | the supply is restored, and no LSD is lost when (d+1)·L1 ≤ S1·ONE or p·L1 ≤ S1·ONE after the mint |
| LimitedShares.RoundTripCanProfit | packages/cavern_lsd_wrapper_token_with_limit/src/querier.rs:97-100 | two transactions on a valid token, beyond the condition, that leave the wrapper with less LSD |
| LimitedShares.DrainPay | packages/cavern_lsd_wrapper_token_with_limit/src/querier.rs:95-100 | the whole supply is quoted at least L, and exactly L if and only if S·ONE mod L < ⌊S·ONE/L⌋, which L² ≤ S·ONE implies |
| LimitedShares.SoleHolderDrains | packages/cavern_lsd_wrapper_token_with_limit/src/handler.rs:45-48 | the sole holder's burn-all succeeds if and only if that holds, and then leaves neither LSD nor supply |
| LimitedShares.PartPaysWithin | packages/cavern_lsd_wrapper_token_with_limit/src/handler.rs:45-48 | under the same condition every burn of a part is quoted at most L |
| LimitedShares.DrainCanFail | packages/cavern_lsd_wrapper_token_with_limit/src/handler.rs:45-48 | a valid token whose sole holder's burn-all is quoted more than L and fails |
| LimitedTrading.BurnKeepsShareExactly | packages/cavern_lsd_wrapper_token_with_limit/src/handler.rs:34-66 | as a transaction, a burn keeps L/S from falling if and only if p·(S·ONE mod L) ≤ (a·ONE mod price)·L, and lowers L'·S against L·S' by at most p·L/ONE |
| LimitedTrading.SmallBurnsAreFair | packages/cavern_lsd_wrapper_token_with_limit/src/handler.rs:34-50 | that condition holds whenever p·L ≤ ONE |
| LimitedTrading.EventKeepsShareExactly | packages/cavern_lsd_wrapper_token_with_limit/src/handler.rs:34-183 | of all events but decompounds only burns that fail the condition lower L/S |
| LimitedTrading.EventLosesAtMost | packages/cavern_lsd_wrapper_token_with_limit/src/handler.rs:34-183 | and these by at most their loss, p·L/(S·S'·ONE) |
| LimitedTrading.TradingDilutesByLosses | packages/cavern_lsd_wrapper_token_with_limit/src/handler.rs:34-183 | over any run without decompounds that never empties the supply, whatever is burned, L/S falls by at most the sum of the losses of its burns |
| LimitedTrading.TradingNeverDilutes | packages/cavern_lsd_wrapper_token_with_limit/src/handler.rs:34-183 | such a run never lowers L/S if and only if each of its burns meets the condition when it is made |
| LimitedBacking.BurnKeepsBackingExactly | packages/cavern_lsd_wrapper_token_with_limit/src/handler.rs:34-66 | after a burn the token is backed if and only if p·r ≤ a·ONE + c, with p, a and c known before it |
| LimitedBacking.CallKeepsBackingExactly | packages/cavern_lsd_wrapper_token_with_limit/src/contract.rs:92-156 | any call leaves a backed token backed if and only if it is covered: a burn by that condition, a first mint by the LSD then held, all others always |
| LimitedBacking.RunKeepsBacking | packages/cavern_lsd_wrapper_token_with_limit/src/contract.rs:92-261 | over any run, whatever its rates, burns and decompounds, a backed token is backed throughout if and only if every event is covered |
| LimitedBacking.ReachableIsBacked | packages/cavern_lsd_wrapper_token_with_limit/src/contract.rs:40-261 | from instantiation: if and only if no tokens were given out and every event is covered |
| LimitedBacking.FairRunsStayBacked | packages/cavern_lsd_wrapper_token_with_limit/src/contract.rs:92-261 | in particular burns that keep L/S from falling, at rates that start at one or more and do not fall, keep the token backed throughout |
| LimitedBacking.RunKeepsWorth | packages/cavern_lsd_wrapper_token_with_limit/src/contract.rs:92-261 | over any run whose rates do not fall, decompounds included and whatever is burned, the worth of a token falls below x, at most one and at most the first rate, by at most the worth of the losses of its burns |
| LimitedBacking.ReachableWorth | packages/cavern_lsd_wrapper_token_with_limit/src/contract.rs:40-261 | from an instantiation that gives out no tokens, every token is worth at least the smaller of one and the first rate, less those losses |
| LimitedBacking.BurnCanUnback | packages/cavern_lsd_wrapper_token_with_limit/src/handler.rs:34-50 | a mint and a burn from instantiation, at rate one, after which the token is worth less than one |

## Left out

- Storage keys, JSON and binary encoding, address validation and response attributes: serialisation only.
- Rate and balance queries to oracles, staking hubs and generators: they are inputs of the model.
- What a contract does when a send notifies it: its calls back into the wrapper follow as further events.
- Allowance expiry, and name, symbol and decimals of the token: cw20-base itself is not part of this model. The wrapper is its own minter and sets no marketing account (`contract.rs:60-71`), so no caller passes the checks of minter, marketing and logo messages.
- Rejection of zero-amount transfers and burns: it depends on the token library and the chain; rejecting more calls removes steps, so every invariant of a run still holds, while the success of a call is stated for a chain that accepts them.
- LSD sent by the wrapper to its own address: a transfer out always lowers the LSD held here.
- Native-coin LSD under the rate-limited wrapper: in this repository it is used with CW20 LSD only (`contracts/amp-lp-wrapper/src/lib.rs:75-110`).
- The token-info query, which only packs the two exchange-rate queries, and the empty `migrate`.
- The hub's dispatching and the reward contracts: message building around the calls modelled here.
