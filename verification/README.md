# Octarine on Stellar: a verified model

A set of Soroban contracts holds and accounts for other people's tokens. This project models
their state machines and arithmetic in Dafny and proves what they promise over whole runs.

Every stateful contract appears twice. A pure module gives each entry point as a function from
state to state, `None` standing for a call that panics and so did not happen; the theorems about
runs are about these functions. Beside it a class holds the contract's own storage as mutable
fields, with the loops and updates of the source, and each method is proved to do exactly what
the function says, rolling everything back when the call fails.

| file | what it models |
|---|---|
| `Math.dfy`, `Sums.dfy`, `Schedule.dfy` | fixed-point rounding, sums over ledgers, redemption schedules |
| `Wire.dfy` | the byte codec of settlement messages over 32-byte words (static types of the Solidity ABI, section "Formal Specification of the Encoding") |
| `Settle.dfy`, `SettleContract.dfy` | one cross-chain settlement contract |
| `Protocol.dfy` | any number of these contracts with a bag of messages in flight |
| `Redemption.dfy`, `Claims.dfy`, `RedemptionContract.dfy` | the redemption vault's batches, accounts, claims |
| `Shares.dfy`, `Vault.dfy`, `VaultContract.dfy` | share accounting with virtual shares and a high-water mark, and a vault over venues |
| `Facility.dfy`, `FacilityContract.dfy` | NAV with vesting gain, bid and ask, redemptions |
| `Queue.dfy` | the first-come first-served exit queue |
| `Rfq.dfy`, `Dutch.dfy`, `RfqContract.dfy` | partial fills of signed orders, Dutch listings |
| `Dex.dfy`, `DexContract.dfy` | the aggregator's routes and fee ledger |

Conventions and assumptions:

- Tokens are balance maps with no clawback and no re-entry. A call into another contract is the
  effect it has on the ledgers, given as a parameter of the step: what a venue credits, what an
  issuer's call moves, what a vault pays for a claim, which transfers a token refuses.
- Outside effects are constrained only where the source relies on it: a call run from one
  redemption account draws on neither the vault nor another account (`Redemption.FairStep`), a
  DEX venue spends only what it was sent and a called router only the input (`Dex.FairStep`),
  messages are delivered once and amounts are bridged without loss (`Protocol`), nobody else
  takes the queue's oLP (`Queue.Elsewhere`), the RWA and the stable of a redemption vault differ.
- `Protocol` assumes `min_received_amount >= 0` of every fill (`Protocol.Floored`): the quote guard
  bounds the taker's net only by that field. `Settle.NegativeFloorBreaks` shows what a negative
  one does, `Settle.SharesExactIff` exactly when the shares add up.
- Order, request and bid hashes are the hashed values themselves, as under an injective hash.
- Integers are unbounded. The source panics when a result does not fit; a model without that
  limit takes every step the source does, and more. `Math.MulDivExact` shows that no intermediate
  of the fixed-point arithmetic overflows.

Five promises hold only under a condition, stated exactly:

- The shares of a settlement payment add up exactly when fee and tip fit in it
  (`Settle.SharesExactIff`, and of accepted quotes `Settle.FillSharesExactIff`).
- A settled redemption leaves NAV where it was exactly when the merged span is not zero
  (`Facility.SettleNavExact`): without a vesting time the surplus shows at once.
- `process` fails exactly when, after some positions, the money left would redeem something
  worth less than one unit (`Queue.ProcessFailsExactly`). If the money is what limits it, more
  money ends that (`Queue.MoneyLimitedWitness`). If the whole front position is worth less than
  a unit, every call that has money to pay fails until it is cancelled or worth more
  (`Queue.WorthlessBlocks`, `Queue.WorthlessBlocksTheRun`).
- The facility's reserve for the queue loses nothing to another exit exactly when the queue's
  claim, at what the exit leaves, has room for the shares of the fee then due
  (`Queue.OthersSpareExactly`), as it has when no fee falls due; it never loses more than a unit
  for each `10^18` of the queue's oLP, or part of it (`Queue.OthersSpareQueue`). A unit can be
  lost (`Queue.FeeTakesAUnit`).
- Filling an order in parts never pays out more (`Rfq.SplittingNeverPaysMore`), but the floored
  fees of the parts can leave the taker more: exactly when is `Rfq.SplittingNetExact`, at most
  one unit less than the number of parts `Rfq.SplittingNet`, an input `Rfq.SplittingGainsOne`.

## Model

| member | source | states |
|---|---|---|
| `Protocol.StepKeeps` | contracts/crosschain_settle/src/lib.rs:302-605 | every step of the two-sided protocol (fill, delivery of FILL direct or through a CCTP inbox, FAIL, PAID, payout, push, withdraw) keeps: one message about each live order and none about any other request, bids marked used only for requests no longer fillable, every contract covering what it owes |
| `Protocol.RunSafe` | contracts/crosschain_settle/src/lib.rs:302-605 | in every reachable state exactly one of FILL, FAIL or PAID is in flight for a live order and none otherwise, and every contract holds its escrows, debts and claim tokens |
| `Protocol.EscrowLeavesOnce` | contracts/crosschain_settle/src/lib.rs:559-605 | over any run a request's fills are its refunds, plus at most one settlement, plus one if it is live: each escrow leaves once, to the taker or through `route_rwa`, never both |
| `Protocol.MakerPaysOnce` | contracts/crosschain_settle/src/lib.rs:484-527 | over any run makers pay for a request at most once: once for its settlement, or once for a payment still on its way to a live order |
| `Protocol.PaymentWithinBid` | contracts/crosschain_settle/src/lib.rs:495-527 | a payment is exactly the FILL's wire amount, within the cap of a bid that is signed, in time, not cancelled and not used before, and that is used from then on |
| `Protocol.SpentNeverFills` | contracts/crosschain_settle/src/lib.rs:414-426 | a request settled by PAID is never filled, refunded or settled again |
| `Protocol.StepEvent` | contracts/crosschain_settle/src/lib.rs:302-605 | a step changes whether a request is live or spent only by filling, refunding or settling that request, each from the one state that allows it |
| `Protocol.InboxKeeps` | contracts/crosschain_settle/src/lib.rs:484-492 | moving a FILL to its CCTP inbox slot, always free, keeps every message well formed and the count of messages about each order |
| `Protocol.FillFailsOnlyFor` | contracts/crosschain_settle/src/lib.rs:495-527 | an honest FILL is refused if and only if its deadline passed, its route is closed, its salt is cancelled, it is not signed, the pull fails or the maker is the contract: never for its amount or a reused bid |
| `Protocol.WaitingFillFailsOnlyFor` | contracts/crosschain_settle/src/lib.rs:484-527 | the same if-and-only-if for a FILL waiting in the inbox, where every CCTP FILL is acted on |
| `Protocol.FailLands` | contracts/crosschain_settle/src/lib.rs:594-605 | a FAIL in flight always lands, whatever transfers the token refuses |
| `Protocol.PaidFindsOrder` | contracts/crosschain_settle/src/lib.rs:559-592 | a payment in flight always finds a live order of its chain and token, and covers that order's quote |
| `Settle.FillTerms` | contracts/crosschain_settle/src/lib.rs:302-335 | the wire amount of a fill is within the signed cap, the payment it causes covers the recorded quote by less than one wire unit, and leaves the taker at least `min_received_amount` |
| `Settle.SharesExactIff` | contracts/crosschain_settle/src/lib.rs:559-592 | a payment pays for its taker, fee and tip shares, sent or held, if and only if fee and tip fit in it, and then leaves slack exactly as it was |
| `Settle.FillSharesExactIff` | contracts/crosschain_settle/src/lib.rs:302-335 | of the quotes a fill accepts, those and only those pay for their own shares, in whatever state the payment arrives, whose fee and tip fit in the quote rounded up to wire units; a floor of zero or more is enough |
| `Settle.NegativeFloorBreaks` | contracts/crosschain_settle/src/lib.rs:458-481 | a concrete fill with a negative `min_received_amount` passes the quote guard and, once settled, leaves another order's escrow short |
| `Settle.FillCovered` | contracts/crosschain_settle/src/lib.rs:302-349 | a fill with a floor of zero or more keeps every non-XLM token covered: live escrows, debts and pushed claim tokens |
| `Settle.PaidCovered` | contracts/crosschain_settle/src/lib.rs:559-639 | settling a payment, in any delivery mode and with any transfers refused, keeps every token covered and removes exactly that order |
| `Settle.PayoutCovered` | contracts/crosschain_settle/src/lib.rs:559-592 | a PAYOUT forwarded to its recipient keeps every token covered |
| `Settle.FailCovered` | contracts/crosschain_settle/src/lib.rs:594-605 | returning an escrow keeps every token covered, and frees exactly that request |
| `Settle.PushCovered` | contracts/crosschain_settle/src/lib.rs:361-381 | claiming a push and bridging whole wire units keeps every token covered, whatever the vault paid in cash and in kind |
| `Settle.WithdrawCovered` | contracts/crosschain_settle/src/lib.rs:400-410 | paying a debt out keeps every token covered |
| `Settle.PaidEntitles` | contracts/crosschain_settle/src/lib.rs:559-639 | whatever is refused, a settlement gives the taker the payment less fee and tip, fee and tip to theirs, the RWA or claim token to the bid's recipient, and nobody else anything |
| `Settle.FailEntitles` | contracts/crosschain_settle/src/lib.rs:594-605 | a FAIL gives the taker its escrow, sent or owed, and nobody else anything |
| `Settle.PayoutEntitles` | contracts/crosschain_settle/src/lib.rs:559-592 | a payout splits exactly into a tip no larger than it and the rest |
| `Settle.WithdrawEntitles` | contracts/crosschain_settle/src/lib.rs:400-410 | `withdraw` turns a debt into a payment of the same size and clears it |
| `Settle.SendOrHoldSpends` | contracts/crosschain_settle/src/lib.rs:680-692 | sent or held, a payment uses no more slack of its token than its amount, and none of any other |
| `Wire.EncodeFill` | contracts/crosschain_settle/src/wire.rs:61-72 | the loop that fills the buffer writes exactly `FillBytes` |
| `Wire.Words` | contracts/crosschain_settle/src/wire.rs:133-141 | the copied buffer is the concatenation of the words |
| `Wire.FillRoundTrip` | contracts/crosschain_settle/src/wire.rs:61-91 | `parse_bid`, `kind`, `word`, `tail` and the slices of an encoded FILL give back the id, the signed 128-bit amount, the bid and the signature, and the hashed slice is `bid_words` |
| `Wire.AboutRoundTrip` | contracts/crosschain_settle/src/wire.rs:93-95 | kind and id of an encoded FAIL or PAID read back |
| `Wire.PayoutRoundTrip` | contracts/crosschain_settle/src/wire.rs:97-106 | kind, recipient and its kind of address read back from a PAYOUT |
| `Wire.BidWordsInjective` | contracts/crosschain_settle/src/wire.rs:43-58 | distinct bids encode to distinct words |
| `Wire.ReencodeIffCanonical` | contracts/crosschain_settle/src/wire.rs:76-91 | re-encoding a parsed bid gives the bytes that arrived if and only if the words carry no bits their types drop |
| `Wire.FromToBE` | contracts/crosschain_settle/src/wire.rs:127-131 | big-endian bytes of any number that fits read back as that number |
| `Wire.TailUint` | contracts/crosschain_settle/src/wire.rs:121-131 | `tail` undoes `uint` on every 128-bit value |
| `SettleContract.ArrivalFill` | contracts/crosschain_settle/src/wire.rs:61-91 | the FILL a maker's chain decodes is the one the taker's chain meant |
| `SettleContract.ArrivalHash` | contracts/crosschain_settle/src/lib.rs:387-394 | the hash recomputed on arrival is the one the maker signed, and no other request, chain or bid has it |
| `SettleContract.CrossChainSettle.FillRequest` | contracts/crosschain_settle/src/lib.rs:302-349 | escrows, records and sends exactly as the fill step, the message decoding to the step's FILL; a refused fill changes nothing |
| `SettleContract.CrossChainSettle.ReceiveFill` | contracts/crosschain_settle/src/lib.rs:484-527 | marks the bid used and pays, or fails, as the step says; a message too short for a bid fails |
| `SettleContract.CrossChainSettle.ReceivePaid` | contracts/crosschain_settle/src/lib.rs:559-592 | pays the shares and routes the RWA as the step says, or changes nothing |
| `SettleContract.CrossChainSettle.ReceiveFunds` | contracts/crosschain_settle/src/lib.rs:559-592 | a payload is forwarded as PAYOUT, settled as PAID or refused, by its first words |
| `SettleContract.CrossChainSettle.ReceiveFail` | contracts/crosschain_settle/src/lib.rs:594-605 | drops the order, frees the request and returns the escrow, as the step says |
| `SettleContract.CrossChainSettle.Deliver` | contracts/crosschain_settle/src/lib.rs:609-639 | each delivery mode moves the RWA as `RouteRwa` says, or nothing moves |
| `SettleContract.CrossChainSettle.PushProceeds` | contracts/crosschain_settle/src/lib.rs:361-381 | claims, measures and bridges as the push step says, or changes nothing |
| `SettleContract.CrossChainSettle.Withdraw` | contracts/crosschain_settle/src/lib.rs:400-410 | pays what is owed and clears it, as the step says |
| `SettleContract.CrossChainSettle.Pay` | contracts/crosschain_settle/src/lib.rs:680-692 | sends, or holds what was refused, as `SendOrHold` says |
| `Redemption.StepKeeps` | contracts/redemption_vault/src/lib.rs:192-410 | every step of holders, settler, operator, governance and outsiders keeps the totals, the backing, the account pool, the statuses and the claim tokens consistent |
| `Redemption.RunSafe` | contracts/redemption_vault/src/lib.rs:134-142 | in every reachable state `pooled`, `proceeds`, `rwa` and `sent` are the sums over Open, Settled, Settled and Sent batches, and the balances cover `pooled + rwa` in RWA and `proceeds` in stable |
| `Redemption.RunAccounts` | contracts/redemption_vault/src/lib.rs:651-670 | in every reachable state an account is busy for a batch exactly when that batch is Sent from it, serves no two, holds what came back, and a Sent batch has an account exactly in AUTO mode and a strike exactly when strikes are at send |
| `Redemption.ClaimInAnyRun` | contracts/redemption_vault/src/lib.rs:228-254 | after a batch settles, whatever else the vault does and whoever claims or burns in between, a claim pays cash and RWA of at least the floor of its share at settlement, never more than is left, and the one that burns the last token leaves nothing |
| `Redemption.PotRun` | contracts/redemption_vault/src/lib.rs:228-254 | over any run a settled batch's cash, RWA and claim supply evolve exactly by the claims and burns of its own token |
| `Redemption.CancelUndoesRequest` | contracts/redemption_vault/src/lib.rs:192-226 | cancelling what was just requested succeeds and restores the books and every balance |
| `Redemption.ManualPaysTheFloor` | contracts/redemption_vault/src/lib.rs:378-410 | a MANUAL settlement that goes through paid at least the NAV of the units redeemed, less the allowance, with no rounding against holders |
| `Redemption.FullNavIsEnough` | contracts/redemption_vault/src/lib.rs:375-401 | paying the full NAV of the units redeemed always reaches the floor |
| `Redemption.SkimRwaCore` | contracts/redemption_vault/src/lib.rs:797-808 | a skim of RWA to anyone else leaves exactly what is owed, and the vault backed |
| `Redemption.SkimStableCore` | contracts/redemption_vault/src/lib.rs:797-808 | a skim of stable to anyone else leaves exactly what is owed, and the vault backed |
| `Redemption.SettingsCore` | contracts/redemption_vault/src/lib.rs:783-795 | whatever settings are applied, accounts and strikes of Sent batches still match the mode and strike policy |
| `Redemption.NoneSent` | contracts/redemption_vault/src/lib.rs:783-795 | a `sent` total of zero means no batch is Sent |
| `Redemption.RedeemCore` | contracts/redemption_vault/src/lib.rs:258-284 | sending an open batch leaves every other account holding what it must, the rest of the pool backed, and the batch with an account and a strike as the settings say |
| `Redemption.IssuerTakesExactly` | contracts/redemption_vault/src/lib.rs:672-693 | after the calls of a send or resend the batch's account is down by the RWA of the batch and by nothing else: it holds afterwards what it held before, or that less what was sent again |
| `Redemption.SettleCore` | contracts/redemption_vault/src/lib.rs:286-322 | settling frees the batch's account and leaves the vault backed and every other busy account holding what it must |
| `Redemption.SettleBooksArrivals` | contracts/redemption_vault/src/lib.rs:286-322 | a settlement books what arrived in stable, at least `min_proceeds`: the fee floored and paid out, the rest to holders, the unsent RWA back in the vault |
| `Redemption.ReopenCore` | contracts/redemption_vault/src/lib.rs:324-358 | taking RWA back leaves the account holding it while the batch stays Sent, or, once all is back, an open batch without account or strike and a backed vault |
| `Redemption.TokensKept` | contracts/claim_token/src/lib.rs:82-141 | every claim token's supply stays the sum of its holders' balances through mint, claim, burn and transfer |
| `Claims.ClaimPaysSettlementShare` | contracts/redemption_vault/src/lib.rs:228-254 | for any order and splitting of claims with burns in between, each claim pays at least the floor of its share of the pot as settled |
| `Claims.SplittingNeverPaysMore` | contracts/redemption_vault/src/lib.rs:228-254 | claiming in parts never pays more than claiming at once |
| `Claims.LastClaimEmpties` | contracts/redemption_vault/src/lib.rs:228-254 | the claim of all that is left empties cash and RWA |
| `Claims.RunWorth` | contracts/redemption_vault/src/lib.rs:236-242 | no claim or burn lowers what one remaining token is worth |
| `RedemptionContract.RedemptionVault.Request` | contracts/redemption_vault/src/lib.rs:192-210 | the entry point does exactly the request step, or nothing |
| `RedemptionContract.RedemptionVault.CancelRequest` | contracts/redemption_vault/src/lib.rs:213-226 | the entry point does exactly the cancel step, or nothing |
| `RedemptionContract.RedemptionVault.ClaimShares` | contracts/redemption_vault/src/lib.rs:230-254 | the entry point does exactly the claim step, or nothing |
| `RedemptionContract.RedemptionVault.RunEach` | contracts/redemption_vault/src/lib.rs:697-715 | runs every verified call in order, and fails if any is not allowed |
| `RedemptionContract.RedemptionVault.FindFree` | contracts/redemption_vault/src/lib.rs:651-656 | the loop finds the first account no batch is busy with, and none exactly when all are busy |
| `RedemptionContract.RedemptionVault.Redeem` | contracts/redemption_vault/src/lib.rs:261-284 | sends or resends exactly as the step says, or changes nothing |
| `RedemptionContract.RedemptionVault.SettleAuto` | contracts/redemption_vault/src/lib.rs:288-322 | settles an AUTO batch exactly as the step says, or changes nothing |
| `RedemptionContract.RedemptionVault.ReopenBatch` | contracts/redemption_vault/src/lib.rs:326-358 | takes RWA back exactly as the step says, or changes nothing |
| `RedemptionContract.RedemptionVault.Withdraw` | contracts/redemption_vault/src/lib.rs:363-373 | sends a MANUAL batch off exactly as the step says, or changes nothing |
| `RedemptionContract.RedemptionVault.SettleByHand` | contracts/redemption_vault/src/lib.rs:378-410 | settles a MANUAL batch exactly as the step says, or changes nothing |
| `RedemptionContract.RedemptionVault.ChangeSettings` | contracts/redemption_vault/src/lib.rs:783-795 | applies settings exactly when the step allows them |
| `RedemptionContract.RedemptionVault.Skim` | contracts/redemption_vault/src/lib.rs:797-808 | skims either token exactly as the step says |
| `Shares.MarkNeverFalls` | crates/shares/src/lib.rs:264-287 | the high-water mark never falls, for any fee up to 100%, and a price at the mark before is at the new mark after the fee's dilution |
| `Shares.FeeBounded` | crates/shares/src/lib.rs:264-275 | minted fee shares are worth at most the fee and more than it less one share, and the fee is at most `fee_bps` of the pool's gain above the mark |
| `Shares.FeeNotShort` | crates/shares/src/lib.rs:264-275 | above the mark the fee falls short of `fee_bps` of the gain by two units of rounding at most, unless NAV cannot bear it |
| `Shares.AccrueOnce` | crates/shares/src/lib.rs:293-298 | accruing again at the same NAV, at any fee, mints nothing and moves nothing |
| `Shares.RoundTripLoss` | crates/shares/src/lib.rs:300-308 | depositing and redeeming at once returns no more than went in and less than one share's price plus one unit below it |
| `Vault.RunSafe` | contracts/vault/src/lib.rs:142-314 | in every state reachable from construction, through deposits, mints, exits, burns, transfers, seizures, accruals, allocations, yield and every change of fee, cap, venues and their order: assets and shares are not negative, shares add up to the supply, and the floored share price is at or above the high-water mark, itself at or above the opening price |
| `Vault.RunKeeps` | contracts/vault/src/lib.rs:142-314 | over any run from a sound state the floored share price stays at or above the high-water mark, the mark never falls and shares add up to the supply |
| `Vault.RunNoFee` | contracts/vault/src/lib.rs:142-195 | with no fee `(nav + 1) / (supply + VIRTUAL)` never falls over a run, so a run back to the same supply leaves no fewer assets |
| `Vault.MaxWithdrawExact` | contracts/vault/src/lib.rs:116-119 | every unfrozen owner, the curator included, can withdraw exactly the positive amounts within liquidity and the worth of its shares after the fee accrues; that is exactly `max_withdraw` for all but a curator with a fee due, and within it nobody burns more shares than it had before |
| `Vault.MaxRedeemHonoured` | contracts/vault/src/lib.rs:121-124 | a redemption within `max_redeem` succeeds if and only if the shares are worth at least one unit |
| `Vault.WithdrawDraws` | contracts/vault/src/lib.rs:171-182 | a withdrawal draws exactly the shortfall from the venues, touching one only after every earlier one is drawn to its limit |
| `Vault.DepositThenRedeem` | contracts/vault/src/lib.rs:142-195 | with no fee, a deposit redeemed at once returns no more than it cost and loses less than one share's price and one unit |
| `Vault.DrawsInOrder` | contracts/vault/src/lib.rs:481-494 | venues are drawn strictly in order, each for no more than its limit |
| `Vault.DrawsTheShortfall` | contracts/vault/src/lib.rs:481-494 | the venues give exactly what idle is short of, or all they can |
| `Vault.SendExact` | contracts/vault/src/lib.rs:481-498 | sending succeeds if and only if liquidity covers it, and lowers NAV by exactly what is sent, or not at all to the vault itself |
| `Vault.LedgerKept` | crates/shares/src/lib.rs:202-257 | share balances stay non-negative and add up to the supply in every step |
| `VaultContract.LendingVault.TotalAssets` | contracts/vault/src/lib.rs:375-381 | the loop adds idle and every venue's assets |
| `VaultContract.LendingVault.PayableNow` | contracts/vault/src/lib.rs:384-390 | the loop adds idle and every venue's limit |
| `VaultContract.LendingVault.SendOut` | contracts/vault/src/lib.rs:481-498 | the loop over venues, stopping once idle suffices, draws exactly what `Draw` says and pays, or fails |
| `VaultContract.LendingVault.AccrueNow` | crates/shares/src/lib.rs:293-298 | leaves the ledger with the new mark and the curator's fee shares of `Accrued` |
| `VaultContract.LendingVault.DepositAssets` | contracts/vault/src/lib.rs:142-153 | does exactly the deposit step, or nothing |
| `VaultContract.LendingVault.MintExact` | contracts/vault/src/lib.rs:155-169 | does exactly the mint step, or nothing |
| `VaultContract.LendingVault.WithdrawAssets` | contracts/vault/src/lib.rs:171-182 | does exactly the withdraw step, or nothing |
| `VaultContract.LendingVault.RedeemShares` | contracts/vault/src/lib.rs:184-195 | does exactly the redeem step, or nothing |
| `VaultContract.LendingVault.BurnFrom` | crates/shares/src/lib.rs:211-216 | burns an unfrozen holder's own shares, or changes nothing |
| `VaultContract.LendingVault.TransferShares` | crates/shares/src/lib.rs:218-243 | moves shares between unfrozen holders, or seizes them, as the step says |
| `VaultContract.LendingVault.LimitFor` | contracts/vault/src/lib.rs:116-119 | computes `max_withdraw` from the loops |
| `Queue.RunKeeps` | contracts/queue/src/lib.rs:79-160 | in every run no position lies outside `[head, tail)`, the queue's oLP covers all waiting shares, and every position can be cancelled |
| `Queue.ProcessAllPays` | contracts/queue/src/lib.rs:108-144 | one call pays out at most the `max_withdraw` it started from, all of it from the facility's NAV, and whatever it changed had nothing left before it |
| `Queue.ProcessInOrder` | contracts/queue/src/lib.rs:108-144 | positions are served strictly from the head, none behind the new head is touched |
| `Queue.ProcessIsMaximal` | contracts/queue/src/lib.rs:114-141 | `process` stops only at the end of the queue, at its allowance, when the money left buys nothing, or with the head served in part |
| `Queue.OthersSpareQueue` | contracts/facility/src/lib.rs:525-536 | nobody else's withdrawal or redemption, at any curator fee and whoever the curator, lowers what the queue can be paid by more than the slip, one unit for up to `10^18` of oLP; with no fee, or none falling due, by nothing |
| `Queue.OthersSpareExactly` | contracts/facility/src/lib.rs:525-536 | nobody else's withdrawal or redemption lowers what the queue can be paid if and only if, at the NAV and supply it leaves, the queue's claim as it was still fits in the queue's part once the shares of the fee then due are minted |
| `Queue.ExitSparesQueue` | contracts/facility/src/lib.rs:597-620 | an exit out of what the queue's claim leaves, at no more than its shares' worth, leaves the queue's `max_withdraw` no lower when no fee falls due after it, and lower by at most the slip at any fee |
| `Queue.FeeTakesAUnit` | contracts/facility/src/lib.rs:597-620 | the loss is real: a facility opened by one deposit and then given two units of yield, its mark still the opening price, where a redemption at a 50% fee lowers what the queue can be paid by one unit |
| `Queue.ProcessFailsExactly` | contracts/queue/src/lib.rs:108-144 | a call with any `max` fails if and only if, after serving some number of positions below `max` in full, it has money left and what that would redeem next is worth less than one unit |
| `Queue.WorthlessBlocks` | contracts/queue/src/lib.rs:119-130 | while the first position is worth less than one unit every call fails, for every `max`, every state of the facility with anything to pay, and whoever waits behind |
| `Queue.WorthlessBlocksTheRun` | contracts/queue/src/lib.rs:108-160 | over any run in which it stays worth less than one unit and is not cancelled, the first position stays as it is and nobody in the queue is paid |
| `Queue.WorthlessWitness` | contracts/queue/src/lib.rs:119-130 | a concrete queue at the opening price, one share at its front, that fails with any money and any `max`, and pays the next in line once that share is cancelled |
| `Queue.MoneyLimitedWitness` | contracts/queue/src/lib.rs:119-130 | a concrete queue after a deposit and yield whose portion is worthless only for want of money: with one unit to pay the call fails, with two it pays two |
| `Queue.RedeemExact` | contracts/facility/src/lib.rs:188-199 | a covered and payable redemption is refused if and only if its shares are worth less than one unit |
| `Queue.WithdrawalQueue.Enter` | contracts/queue/src/lib.rs:79-104 | does exactly the request step, or nothing |
| `Queue.WithdrawalQueue.Leave` | contracts/queue/src/lib.rs:147-160 | does exactly the cancel step, or nothing |
| `Queue.WithdrawalQueue.Serving` | contracts/queue/src/lib.rs:108-144 | the loop terminates, serves at most `max` and leaves exactly what `Process` says, or changes nothing |
| `Facility.TradeNav` | contracts/facility/src/lib.rs:207-247 | at any vesting time a trade moves NAV at that instant, within one unit, by what it releases less what its loss exceeds the locked gain by; with `vest_seconds >= 1` it releases nothing, otherwise the gain and what was locked when they merge into a span of zero |
| `Facility.BookingNav` | contracts/facility/src/lib.rs:251-273 | booking a redemption lowers NAV by at most one unit and never raises it |
| `Facility.SettleNav` | contracts/facility/src/lib.rs:276-290 | settling a redemption moves NAV by exactly what it releases, with `vest_seconds >= 1` by nothing |
| `Facility.SettleNavExact` | contracts/facility/src/lib.rs:276-290 | settling leaves NAV unmoved if and only if the merged span is not zero, so with no vesting time the surplus shows at once |
| `Facility.WriteDownNav` | contracts/facility/src/lib.rs:294-316 | writing a redemption down costs NAV exactly what the loss exceeds the locked gain by |
| `Facility.SpanBracket` | contracts/facility/src/lib.rs:566-586 | merging a gain gives a span between the time left and the vesting time, and within one second of their size-weighted mean |
| `Facility.GainLocks` | contracts/facility/src/lib.rs:566-586 | all of a booked gain is locked at that instant if and only if the span is not zero, which a vesting time of a second ensures |
| `Facility.LossLocks` | contracts/facility/src/lib.rs:564-586 | a loss is taken from what is locked first, to no less than nothing |
| `Facility.LockedFalls` | contracts/facility/src/lib.rs:555-562 | between bookings locked gain never increases |
| `Facility.LockedAt` | contracts/facility/src/lib.rs:555-562 | locked gain is between nothing and the amount booked, nothing from the end on, and never divides by zero |
| `Facility.LockedNeverExceedsGains` | contracts/facility/src/lib.rs:555-586 | over any bookings and time, what is locked never exceeds what was locked plus the gains booked |
| `Facility.NoVestReleases` | contracts/facility/src/lib.rs:566-586 | a concrete gain booked with no vesting time is released at once |
| `Facility.TradeBound` | contracts/facility/src/lib.rs:394-455 | no trade gives out more than it takes in, at the bid |
| `Facility.SellFair` | contracts/facility/src/lib.rs:431-437 | selling to the facility pays the bid, short by two units of rounding at most |
| `Facility.BuyFair` | contracts/facility/src/lib.rs:439-455 | buying from the facility gives what the ask buys, short by rounding only |
| `Facility.CirclesLose` | contracts/facility/src/lib.rs:394-455 | at fixed prices and time, whatever is traded, split or routed through base and any RWAs, a trader who starts with one token never ends with more of it |
| `FacilityContract.TradingFacility.Nav` | contracts/facility/src/lib.rs:484-501 | the loop computes base, RWAs at the oracle and open redemptions, less locked gain |
| `FacilityContract.TradingFacility.Exchange` | contracts/facility/src/lib.rs:207-247 | does exactly the trade step, or nothing |
| `FacilityContract.TradingFacility.AddGain` | contracts/facility/src/lib.rs:566-586 | books a gain or loss exactly as `BookGain` says |
| `FacilityContract.TradingFacility.SendToIssuer` | contracts/facility/src/lib.rs:251-273 | books a redemption exactly as the step says, or nothing |
| `FacilityContract.TradingFacility.SettleRedemption` | contracts/facility/src/lib.rs:276-290 | settles exactly as the step says, or nothing |
| `FacilityContract.TradingFacility.WriteOff` | contracts/facility/src/lib.rs:294-316 | writes down exactly as the step says, or nothing |
| `Schedule.NextDate` | crates/common/src/schedule.rs:24-34 | a passed redemption date rolls forward whole cycles to the first one ahead |
| `Schedule.AlwaysHasHorizon` | crates/common/src/schedule.rs:6-35 | a schedule that was valid when set has a positive horizon within ten years at every later time |
| `Rfq.OrderHistory` | contracts/rfq/src/lib.rs:227-359 | over any history of fills at any times, prices and parts, an order's input stays within `taker_amount`, the maker's outlay within its limit pro rata and in all, and the taker's receipts at or above the floor pro rata, the whole floor once full |
| `Rfq.RequestHistory` | contracts/rfq/src/lib.rs:608-619 | fills of one named taker's request by any number of makers never exceed it |
| `Rfq.FillBounds` | contracts/rfq/src/lib.rs:256-282 | one fill's outlay is within its share of the limit and its receipts reach its share of the floor, rounded up |
| `Rfq.CancelledStays` | contracts/rfq/src/lib.rs:552-562 | once a maker's or named taker's salt is cancelled nothing of theirs is filled again |
| `Rfq.PriceIsOwed` | contracts/rfq/src/lib.rs:227-359 | the price the splitting results are about is what a fill of an RFQ or a fixed order quotes |
| `Rfq.SplittingNeverPaysMore` | contracts/rfq/src/lib.rs:462-479 | at one price filling an RFQ or a fixed order in any number of parts never pays out more than filling once |
| `Rfq.PayoutFair` | contracts/rfq/src/lib.rs:462-479 | a payout is the price less the discount, never more and short by two units of rounding at most |
| `Rfq.SplittingNetExact` | contracts/rfq/src/lib.rs:462-479 | net of fees, filling in any number of parts gives the taker more than filling once if and only if what the parts' fees round away, with the fee on the gap between the prices, makes up the gap and a unit |
| `Rfq.SplittingNet` | contracts/rfq/src/lib.rs:462-479 | net of fees, `n` parts gain the taker `n - 1` units at most |
| `Rfq.SplittingGainsOne` | contracts/rfq/src/lib.rs:462-479 | a concrete split whose two floored fees leave the taker one unit more |
| `Dutch.RunKeeps` | contracts/rfq/src/lib.rs:361-460 | in every run the contract's balances cover every active listing, so a seller can always cancel |
| `Dutch.ClosedStaysClosed` | contracts/rfq/src/lib.rs:396-460 | a filled or cancelled listing is never filled or cancelled again |
| `Dutch.AskFalls` | contracts/rfq/src/lib.rs:526-540 | the ask starts at the start, never rises, stays at or above the floor and rests on it |
| `Dutch.RescaleSound` | contracts/rfq/src/lib.rs:511-524 | rescaling to what arrived keeps the curve's shape and never raises the price of a unit |
| `RfqContract.RfqSettlement.Validate` | contracts/rfq/src/lib.rs:542-582 | every check of a fill, booking the request of a named taker |
| `RfqContract.RfqSettlement.FillOrder` | contracts/rfq/src/lib.rs:227-359 | does exactly the fill, RFQ or fixed, or nothing |
| `RfqContract.RfqSettlement.TakeFill` | contracts/rfq/src/lib.rs:621-627 | advances an order's counter exactly when it stays within the order |
| `RfqContract.RfqSettlement.BookRequest` | contracts/rfq/src/lib.rs:608-619 | advances a request's counter exactly when it stays within the request |
| `RfqContract.RfqSettlement.CreateListing` | contracts/rfq/src/lib.rs:361-390 | escrows and lists exactly as the step says, or nothing |
| `RfqContract.RfqSettlement.FillListing` | contracts/rfq/src/lib.rs:396-447 | releases a listing exactly as the step says, or nothing |
| `RfqContract.RfqSettlement.CancelListing` | contracts/rfq/src/lib.rs:449-460 | returns a listing's escrow exactly as the step says, or nothing |
| `Dex.RunKeeps` | contracts/aggregators/dex/src/lib.rs:168-175 | in every run and for every token `total_owed` is the sum of `owed` over recipients, the balance is at least that, and everyone owed can claim |
| `Dex.SwapFree` | contracts/aggregators/dex/src/lib.rs:206-274 | a swap, by adapters or calldata, lowers what is free of no token: it spends only its user's payment and pays out only what its route delivered |
| `Dex.FillFree` | contracts/aggregators/dex/src/lib.rs:566-594 | a router fill uses no more than what is free of the input, and nothing of any other token |
| `Dex.ExecuteSpends` | contracts/aggregators/dex/src/lib.rs:329-352 | splits and hops spend at most the split amounts of the input, draw on no other token and leave at least what is counted of the output |
| `Dex.ExecuteCallsSpends` | contracts/aggregators/dex/src/lib.rs:357-399 | calldata spends at most `amount_in` of the input, exactly that once the unspent part is refunded, and draws on nothing else |
| `Dex.SettleExact` | contracts/aggregators/dex/src/lib.rs:430-459 | what a route delivered is split exactly into fees accrued and a payment of at least `min_out` |
| `Dex.FeesWithin` | contracts/aggregators/dex/src/lib.rs:461-472 | both fees together never exceed 4% of the delivery |
| `Dex.AccrueLedger` | contracts/aggregators/dex/src/lib.rs:477-492 | protocol and partner fee are credited in full, whatever the share between them |
| `Dex.ClaimKeeps` | contracts/aggregators/dex/src/lib.rs:277-292 | a claim in any tokens and order always succeeds, clears what is owed and leaves the rest covered |
| `DexContract.DexAggregator.RunSplit` | contracts/aggregators/dex/src/lib.rs:332-348 | the loop over hops, each paid from what the last was measured to give, does what `RunHops` says |
| `DexContract.DexAggregator.RunRoute` | contracts/aggregators/dex/src/lib.rs:329-352 | the loop over splits adds up what `Execute` says |
| `DexContract.DexAggregator.CallEach` | contracts/aggregators/dex/src/lib.rs:373-390 | the budget loop runs exactly the calls it can, or fails |
| `DexContract.DexAggregator.RunCalldata` | contracts/aggregators/dex/src/lib.rs:357-399 | measures, refunds and counts as `ExecuteCalls` says |
| `DexContract.DexAggregator.SpendOf` | contracts/aggregators/dex/src/lib.rs:380-382 | adds up a call's authorised spends, refusing any entry that is not a plain transfer |
| `DexContract.DexAggregator.PayOut` | contracts/aggregators/dex/src/lib.rs:430-459 | accrues fees and pays exactly as `Settle` says, or changes nothing |
| `DexContract.DexAggregator.SwapFor` | contracts/aggregators/dex/src/lib.rs:206-274 | does exactly the swap step, or nothing |
| `DexContract.DexAggregator.FillForRouter` | contracts/aggregators/dex/src/lib.rs:566-594 | does exactly the router fill step, or nothing |
| `DexContract.DexAggregator.ClaimAll` | contracts/aggregators/dex/src/lib.rs:277-292 | the loop over tokens does exactly the claim step, or nothing |
| `Math.MulDivRound` | crates/common/src/math.rs:29-45 | fails with Domain exactly for a negative factor or a divisor that is not positive, and otherwise gives an i128 or Overflow |
| `Math.MulDivExact` | crates/common/src/math.rs:20-45 | on i128 operands no 256-bit intermediate overflows, floor and ceiling are exact, and fail only when the quotient does not fit |

## Left out

- Overflow outside `Math`: a step whose result does not fit its integer type panics in the source and may succeed here.
- Signatures, order hashing and XDR encoding: a boolean the caller supplies, and keys equal exactly when the values are.
- LayerZero and CCTP transports: only delivery of each message once, in any order, with the amount unchanged; that a bridged payment and its message arrive together is part of that.
- XLM messaging fees and `sweep`: every claim about balances is about tokens other than XLM.
- Configuration changes of the settlement contracts during a run: peers, routes and units are fixed; a request hash belongs to the chain that first filled it.
- PAYOUT packets between chains: a payout arrives as a step of the environment with any amount.
- Timelocks, roles, pause (beyond the guards shown), allowlists and the claim token's gate: they decide only who may take a step.
- `spender` approvals around a redemption account's calls: their effect is part of what the calls do to the ledgers.
- Oracle reads, price resolution and price pushes: any positive price, or none, fixed within one call.
- The facility's own deposits and exits beyond `Queue.Exit`: share conversions are those of `Shares`; NAV in `Facility` is between trades and redemptions.
- Facility.TradeNav: vault positions are exact integers, so the tolerance of one unit in what a vault credits is not modelled.
- Vault.RunKeeps: a venue's loss is not a step, as a loss lowers the share price below the mark by design; a venue credits and returns exactly what it is given and asked.
- Share allowances and operators other than the owner: who may start an exit, not what it does.
- Venue and DEX adapters, the router, quotes that only simulate, and the best-quote search: pure reads or thin wrappers.
- Storage TTL, events, upgrades, contract deployment and naming, the TypeScript SDK, keepers and mocks.
