# Cliqpay ledger: verified model

Cliqpay keeps its money twice: append-only double-entry `ledger_entries`, and a cached `balance` on each
account. This project models the service that moves the money, the rules around it, and three smaller
kernels, and proves what they keep.

- **The ledger.** `Tables` holds the rows, `Postings` the chart of accounts and what posting legs does,
  `LedgerSpec` what every database transaction does to the tables, as functions. `LedgerServices` is the service
  itself: a class whose fields are the tables, one method per database transaction, each computing the new
  balances and appending the entries as the service does, and each proved to have exactly the effect its
  function states. A transaction that throws after a write restores the tables it began with.
- **The rules.** `Evolution` (what is never unwritten), `Accounting` (the books), `Refunds`, `Reversals`,
  `DisputeRules`, `WalletRules` and `RequestRules` each hold one part of the invariant; `Runs` proves that every
  transaction keeps all of it, for any sequence of transactions. Provider reports are arbitrary: duplicated,
  reordered, contradictory or late. `Guarantees` reads off what that means after any run, and `ClientFlows` what
  a client is told when its request spans several transactions. `IdentityOutcomes`, `FundingOutcomes`,
  `PaymentOutcomes` and `DisputeOutcomes` say of each operation exactly when it acts and what it then leaves, in the
  tables' own columns, with `Effects` for the aggregates read and the balances and entries left.
- **The lock protocols.** `Locks` and `LockOrder` run any number of postings, chargebacks and rulings lock by lock;
  `RulingOverlap` runs overlapping rulings and chargebacks on one funding statement by statement, and `SocialLocks`
  follows, blocks, interactions and transfers, both at read-committed isolation. `LimitLocks` runs the daily limit and
  balance cap checks under the user keys, and shows what happens without them.
- **Runs that get there.** `Witness` reaches a frozen negative wallet, and the states in which a result fails to hold.
- **The kernels.** `Feed` (per-followee pages against the plain query), `RawJson` with `JsonText` (cutting a member's
  source text out of a JSON object, RFC 8259), `Money` with `Decimal` (amounts and their decimal text). `Sums` is
  the arithmetic of SQL aggregates, `FiniteSets` that of cardinalities.

Conventions. A row's position is its id. Accounts 0 to 4 are float, suspense, fee_income, fee_expense and
fee_recovery; user `u` owns account `5 + u`. Amounts are unbounded integers of minor units, as the service's
`bigint` is. The clock, the outcome of provider calls, the earlier read of the frozen flag, the PIN check and the
block check of another module are parameters of the transaction that uses them. Row locks and guarded updates make
each database transaction one step, except in the lock modules, which open those steps up. A debit's row is stamped
when its transaction begins and checked later; the model keeps both instants.

Assumptions, all in `Runs.Enabled`: ids name existing rows, amounts are positive and fees not negative, a funding is
given up only while pending, and a chargeback's earlier status check once saw its original credited (that check may be
stale; `Guarantees.CreditedIsForGood` shows it cannot become wrong).

Where the code departs from its documentation, the model follows the code:

- Reversing a withdrawal writes a credit entry to fee_expense but adds to its cached balance, where the mirror image
  would subtract. The architecture document (sections 3.2 and 4.2) says fee_expense always equals fee_recovery.
  `Guarantees.CachedBalancesFollowEntries` states the exact drift, and
  `Guarantees.FeePairAgreesIffNoFeeReversed` exactly when the two agree.
- An uphold that overlaps a chargeback or another ruling on the same funding can leave its status wrong:
  `RulingOverlap.StatusRightIffLastSawTruly` says exactly when, `RulingOverlap.UpholdOverwritesChargeback` and
  `RulingOverlap.UpholdsLeaveDisputed` show how. Rulings and chargebacks one after the other never do
  (`RulingOverlap.RightUnlessOvertaken`), nor rulings in Cliqpay's favour and chargebacks among themselves
  (`RulingOverlap.WithoutUpholdsAlwaysRight`).
- A frozen sender, or one with a wrong PIN, is turned away without the second look for a twin that every later
  failure gets: `ClientFlows.AnswerRightUnlessTurnedAwayFromTwin`, at its input `ClientFlows.FrozenTwinIsToldItFailed`.
  What a withdrawal's answer can miss is `ClientFlows.WithdrawalAnswerRightUnlessMisled`, with one lemma for each way.
- A debit stamped before midnight and checked after it counts on a day it was not checked against. A day's debits stay
  within the limit plus what was stamped that day and checked later (`Guarantees.DailyDebitsWithinLimitAndLate`); the
  check keeps the stamped day within the limit in every state exactly when the stamp is not of an earlier day
  (`Witness.TransferCheckKeepsStampedDayIffNotEarlier`, `Witness.WithdrawalCheckKeepsStampedDayIffNotEarlier`).
- Marking a funding failed is not guarded on its status: `Guarantees.MarkingFailedIsSafeIffUnposted`.
- Posting a transfer's entries does not itself refuse one wallet twice: `TransferEffects.ConservedIffWalletsDiffer`.
- A rejected payout is reversed, and a dispute resolved in Cliqpay's favour, only when the reference the compensating
  row derives is still free: `ClientFlows.RejectedPayoutIsReversedIffReferenceFree`,
  `Guarantees.FavourIsGrantedIffReferenceFree`; both are reached (`Witness.ATakenReversalIsReached`,
  `Witness.ATakenResolutionIsReached`).
- Cancelling or declining a money request can overwrite a payment, or the other party's close, committed since it was
  read: `Guarantees.SavedCloseIsSafeIffUndecided`.
- Recording a chargeback locks its original before the accounts, and a ruling in Cliqpay's favour after them:
  `LockOrder.NeverDeadlockIffApart`.
- The decimal parser drops anything after a second dot, and printing does not round trip for a currency without minor
  units: `Money.SpellingIsRead`, `Money.RoundTripIffMinorUnits`.

## Model

| member | source | states |
|---|---|---|
| Guarantees.CachedBalancesFollowEntries | src/modules/ledger/ledger.service.ts:2132-2213 | After any run every cached balance is the signed fold of its account's entries, except fee_expense, which exceeds it by exactly twice the provider fees of the reversed withdrawals. |
| Guarantees.RunningBalancesFollowEntries | src/modules/ledger/ledger.service.ts:1574-1627 | The running balance an entry carries is its account's fold up to and including it, with the same drift on fee_expense. |
| Guarantees.FloatIsWhatIsOwed | docs/architecture.md:337-352 | Conservation after any run: float is the sum of all wallets, fee_income and suspense. |
| Guarantees.EveryEntrySetBalances | docs/architecture.md:352 | The debits and credits posted for any transaction are equal after any run. |
| Guarantees.FeePairAgreesIffNoFeeReversed | src/modules/ledger/ledger.service.ts:2139-2141 | The cached fee_expense equals fee_recovery exactly when no reversed withdrawal paid a provider fee. |
| Guarantees.SuspenseIsHeldFundings | src/modules/ledger/ledger.service.ts:966-1066 | Suspense is the sum of the fundings now held. |
| Guarantees.OneEntrySetPerReference | src/modules/ledger/ledger.service.ts:1648-1656 | A reference names at most one row, and that row's entries are exactly the legs its type and status call for, once each, in order. |
| Guarantees.TakenReferenceChangesNothing | src/modules/transfers/transfers.service.ts:343-363 | Starting a funding, transfer, withdrawal or chargeback under a reference already taken leaves every table as it was. |
| Guarantees.PostedTransferReplays | src/modules/transfers/transfers.service.ts:200-244 | Whatever happens after a transfer posts, an identical request is answered with its row and posting it again changes nothing. |
| Guarantees.ReplayMatchesOnlyTheSameTransfer | src/modules/ledger/ledger.service.ts:435-462 | A replay matches exactly when some row is the same transfer in sender, recipient, amount, note and visibility; it is fresh exactly when the reference is unused. |
| Guarantees.ReversedByExactlyOneRow | src/modules/ledger/ledger.service.ts:2042-2074 | A reversed withdrawal is compensated by exactly one row and any other by none, however failure reports are repeated. |
| Guarantees.SuspensePaidOutOnce | src/modules/ledger/ledger.service.ts:1200-1270 | Any two entries that debit suspense for one funding are the same entry: its money leaves once, whatever order successes and failures arrive in. |
| Guarantees.RefundAttemptsOfHeldFundings | src/modules/ledger/ledger.service.ts:1160-1189 | A held funding has no completed attempt and at most one pending, a refunded one exactly one completed and none pending, any other none; attempts are numbered from one without gaps. |
| Guarantees.PendingAttemptIsNewest | src/modules/ledger/ledger.service.ts:1272-1294 | The attempt in flight is later than every other of its funding, so settling an earlier one supersedes a later one. |
| Guarantees.WalletFloor | src/modules/ledger/ledger.service.ts:2533-2546 | A wallet is never below minus its chargebacks not resolved in Cliqpay's favour, and that figure is never negative. |
| Guarantees.WalletIsWorthOfItsRows | docs/architecture.md:195-321 | A wallet's cached balance is exactly what its rows say: credited fundings and transfers received, less what was sent, withdrawn and charged back, plus what reversals and resolutions gave back. |
| Guarantees.NegativeWalletIsFrozen | src/modules/disputes/disputes.service.ts:175-180 | A negative wallet always has a frozen owner. |
| Guarantees.BelowZeroOnlyByChargebackThatFreezes | src/modules/disputes/disputes.service.ts:165-180 | The step that takes a wallet from non-negative to negative is a chargeback, and it leaves the owner frozen. |
| Guarantees.OthersStayNonNegative | src/modules/ledger/ledger.service.ts:1723-1730 | No other transaction takes a wallet below zero, even one that owes something. |
| Guarantees.UnfrozenOnlyWhenClear | src/modules/disputes/disputes.service.ts:405-425 | Only a ruling in Cliqpay's favour lifts a freeze, and only at a non-negative balance with no dispute open on the wallet. |
| Guarantees.CappedWallet | src/modules/kyc/kyc.service.ts:774-803 | A capped wallet never exceeds its current tier's cap plus what reversals and chargeback resolutions credited to it. |
| Guarantees.DailyDebitsWithinLimitAndLate | src/modules/kyc/kyc.service.ts:722-748 | After any run, for every user and local day, pending and completed transfer and withdrawal principal is at most the current tier's limit plus what was stamped that day and checked on a later one. |
| Witness.TransferCheckKeepsStampedDayIffNotEarlier | src/modules/ledger/ledger.service.ts:130-147 | Over all states and transfers, a passed check keeps the stamped day within the limit exactly when the row is not stamped before the day of the check. |
| Witness.WithdrawalCheckKeepsStampedDayIffNotEarlier | src/modules/withdrawals/withdrawals.service.ts:289-297 | The same for withdrawals. |
| Witness.LateTransferExceedsLimit | src/modules/kyc/kyc.service.ts:738-748 | For any stamp of an earlier day than the check, a reachable state and a transfer that posts and takes the stamped day above the limit. |
| Guarantees.TransferInTimeFits | src/modules/kyc/kyc.service.ts:738-748 | A transfer that posts and is not stamped before the day of its check leaves the stamped day within the limit. |
| Guarantees.FundingCreditsExactlyOrIsHeld | src/modules/payments/payments.service.ts:470-530 | A credited funding moved exactly its requested amount into its own wallet and no other; a held or failed one moved none. |
| Guarantees.CreditedIsForGood | src/modules/disputes/disputes.service.ts:85-157 | A funding once credited stays credited, so a chargeback's earlier status check cannot go stale. |
| Guarantees.ChargebacksWithinFunding | src/modules/ledger/ledger.service.ts:2480-2502 | Chargebacks against one funding never sum above its amount, and a charged-back funding carries the aggregate of its disputes. |
| Guarantees.MarkingFailedIsSafeIffUnposted | src/modules/ledger/ledger.service.ts:554-558 | The unguarded update keeps the invariant and unwrites nothing exactly when the funding was neither credited nor held. |
| Guarantees.FavourIsGrantedIffReferenceFree | src/modules/ledger/ledger.service.ts:2702-2722 | An open dispute ruled in Cliqpay's favour at its own amount is resolved exactly when the derived reference is free; otherwise it stays open. |
| Guarantees.PaidRequestNamesItsTransfer | src/modules/transfers/money-requests.service.ts:338-420 | A paid request names a completed transfer of exactly its amount from its payer to its requester, and no other paid request names it. |
| Guarantees.RequestIsPaidOnce | src/modules/transfers/money-requests.service.ts:320-337 | Once paid, no later payment of a request posts anything, under any reference, after any run. |
| Guarantees.SeededLimitsAreConfigured | src/database/migrations/1787600000001-CreateTierLimits.ts:25-32 | The seeded tier limits rise with the tier. |
| Guarantees.SavedCloseIsSafeIffUndecided | src/modules/transfers/money-requests.service.ts:263-313 | A cancel or decline read before and saved after other transactions keeps the invariant and unwrites nothing exactly when the request is still outstanding or was closed the same way. |
| Guarantees.RequestDecidedByItsParties | src/modules/transfers/money-requests.service.ts:263-420 | An outstanding request is paid or declined only by its payer and cancelled only by its requester, and only before it expires. |
| Guarantees.DecidedRequestStays | src/modules/transfers/money-requests.service.ts:74-91 | A paid, cancelled or declined request never changes again, over any run. |
| ClientFlows.AnswerRightUnlessTurnedAwayFromTwin | src/modules/transfers/transfers.service.ts:252-404 | With anything committed between its steps, a send is answered with success exactly when its transfer is posted, naming the only row with its reference; except exactly when a frozen sender or a wrong PIN is turned away after a twin committed. |
| ClientFlows.FrozenTwinIsToldItFailed | src/modules/transfers/transfers.service.ts:260-263 | The failing input: the twin posts in between, and the request is told the account is frozen. |
| ClientFlows.WithdrawalAnswerRightUnlessMisled | src/modules/withdrawals/withdrawals.service.ts:223-377 | A withdrawal is answered with success exactly when it is posted and not reversed; the exceptions are stated exactly, by what the provider reported meanwhile. |
| ClientFlows.StatusIsFirstReport | src/modules/ledger/ledger.service.ts:2042-2302 | A pending withdrawal's status after any run is what the first report that counted said; nothing else touches its row. |
| ClientFlows.AcceptedThenReportedFailed | src/modules/withdrawals/withdrawals.service.ts:354-377 | Accepted, but reported failed before the answer: success is answered for a reversed withdrawal. |
| ClientFlows.RejectedAfterReportedPaid | src/modules/withdrawals/withdrawals.service.ts:346-352 | Rejected after it was reported paid: failure is answered for a paid one. |
| ClientFlows.RejectedWithReversalTaken | src/modules/ledger/ledger.service.ts:2155-2175 | Rejected while another row has the reversal's reference: failure is answered and the debit stands. |
| ClientFlows.ThrewAfterTheDebit | src/modules/withdrawals/withdrawals.service.ts:330-344 | The payout call threw: failure is answered for a withdrawal still on its way. |
| ClientFlows.FrozenWithdrawalTwinIsToldItFailed | src/modules/withdrawals/withdrawals.service.ts:276-284 | Frozen while its twin posts: failure is answered for a withdrawal on its way. |
| ClientFlows.PaymentAnswerIsRight | src/modules/transfers/money-requests.service.ts:338-420 | Paying a request is answered with success exactly when the request is paid with the transfer of this payment. |
| ClientFlows.RetryPaysIffPostedAndNotReversed | src/modules/withdrawals/withdrawals.service.ts:385-432 | A retried withdrawal is reported on its way exactly when the same withdrawal is posted and not reversed, and rejected exactly when it is reversed. |
| ClientFlows.RejectedPayoutIsReversedIffReferenceFree | src/modules/withdrawals/withdrawals.service.ts:346-352 | A rejected payout ends with the withdrawal reversed by exactly one row, exactly when the derived reference is free; otherwise nothing is compensated. |
| ClientFlows.ReversalUndoesWithdrawal | src/modules/ledger/ledger.service.ts:2076-2213 | A withdrawal and its reversal restore every balance but fee_expense, and that one exactly when there was no provider fee. |
| IdentityOutcomes.TierIsEarned | src/modules/kyc/internal/tier.ts:15-26 | After any run a user is at tier3 exactly when BVN, NIN and liveness are verified, at tier2 when BVN and NIN are and liveness is not, at tier1 when one of BVN and NIN is, and at tier0 otherwise. |
| IdentityOutcomes.VerifyingSetsOneFlag | src/modules/kyc/kyc.service.ts:266-280 | Each proof verifies its own identity and no other; the tier becomes the one then earned, and nothing else changes. |
| Effects.LocalDayRunsFrom23Utc | src/modules/kyc/internal/day-start.ts:25-36 | The day a limit counts is the 24 hours from 23:00 UTC, local midnight. |
| FundingOutcomes.InitiatedIffRoom | src/modules/payments/payments.service.ts:243-318 | A funding starts exactly when the balance, what is pending from the last day and the amount fit the cap and the reference is unused; it is a pending row and moves nothing. |
| FundingOutcomes.UnconfirmedFundingFails | src/modules/ledger/ledger.service.ts:1074-1127 | A failure, or a success whose amount is not the one requested nor a webhook's gross of it, fails the funding and changes nothing else. |
| FundingOutcomes.ConfirmedFundingIsCredited | src/modules/payments/payments.service.ts:478-515 | A confirmed funding with room is completed: wallet and float rise by the amount, fee_expense and fee_recovery by the fee, with those four entries. |
| FundingOutcomes.ConfirmedFundingIsHeld | src/modules/ledger/ledger.service.ts:966-1066 | A confirmed funding without room is held: suspense and float rise by the amount and the first refund attempt is pending; nothing happens when its reference is taken. |
| FundingOutcomes.RefundStartsIffNoneInFlight | src/modules/ledger/ledger.service.ts:1160-1189 | Exactly a held funding with no attempt pending gets one, numbered one past all there are, when the derived reference is free. |
| FundingOutcomes.OnlyAnotherKindTakesRetryReference | src/modules/ledger/ledger.service.ts:1129-1150 | The reference of a funding's next attempt is never that of any refund attempt made so far. |
| FundingOutcomes.RefundSettlesIffHeld | src/modules/ledger/ledger.service.ts:1200-1270 | A reported refund settles exactly a pending or failed attempt of a held funding at its own amount: attempt completed, funding refunded, its other pending attempts failed, suspense and float down by the amount. |
| FundingOutcomes.NoneInFlightOnceSettled | src/modules/ledger/ledger.service.ts:1272-1294 | Once one attempt has settled, none of its funding is pending. |
| FundingOutcomes.RefundFailsIffPending | src/modules/ledger/ledger.service.ts:1465-1500 | A reported failure fails exactly an attempt that is pending, and changes nothing else. |
| FundingOutcomes.AlertIffPaidByAnother | src/modules/payments/payments.service.ts:629-647 | A late success raises the alert exactly when another attempt of the funding has already paid it out. |
| PaymentOutcomes.SendActsIffMaySend | src/modules/transfers/transfers.service.ts:252-363 | A send acts exactly when neither frozen, mistyped, blocked nor to oneself, its principal is within the day's limit, the recipient's cap has room above what is pending, the balance covers amount and fee, and the reference is unused. |
| PaymentOutcomes.SendMovesAmountAndFee | src/modules/ledger/ledger.service.ts:1715-1819 | A send that acts takes amount and fee from the sender, gives the amount to the recipient and the fee to fee_income, and adds a row with that fee, note and visibility; no other balance moves. |
| PaymentOutcomes.SendPostsIffItMay | src/modules/transfers/transfers.service.ts:200-363 | With anything committed in between, a request posts exactly when its reference was unused at the first look and the send is then still allowed. |
| PaymentOutcomes.WithdrawActsIffMayWithdraw | src/modules/withdrawals/withdrawals.service.ts:276-317 | A withdrawal acts exactly when not turned away, its principal is within the day's limit, the balance covers amount and both fees, and the reference is unused. |
| PaymentOutcomes.WithdrawMovesAmountAndFees | src/modules/ledger/ledger.service.ts:1912-2016 | A withdrawal that acts adds a pending row and moves each of its five balances by the number the design gives. |
| PaymentOutcomes.WithdrawalPostsIffItMay | src/modules/withdrawals/withdrawals.service.ts:223-377 | With anything committed in between, a request answers that it posted exactly when its reference was unused, it is then still allowed, and the provider accepted it or is unknown to have. |
| PaymentOutcomes.FailureReversesIffPending | src/modules/ledger/ledger.service.ts:2042-2213 | A reported failure reverses exactly a pending withdrawal whose derived reference is free, giving back amount and both fees by one compensating row; fee_expense grows once more. |
| PaymentOutcomes.SuccessCompletesIffPending | src/modules/ledger/ledger.service.ts:2244-2302 | A reported success completes exactly a pending withdrawal at its own amount, and changes nothing else. |
| DisputeOutcomes.ChargebackRecordedIffFits | src/modules/disputes/disputes.service.ts:158-196 | A chargeback is recorded exactly when it fits what earlier ones left and its reference is new: wallet and float fall by it, the funding is disputed, an open dispute names it, and the owner is frozen when the balance is then negative. |
| DisputeOutcomes.UpheldIsFinal | src/modules/disputes/disputes.service.ts:349-376 | Upholding an open dispute ends it; its funding is disputed if a sibling is open and reversed otherwise; books, users and all other rows stay. |
| DisputeOutcomes.FavourGivesBackAndUnfreezes | src/modules/disputes/disputes.service.ts:378-425 | Ruling for Cliqpay gives the amount back to wallet and float, recomputes the funding from its other disputes, and lifts the freeze exactly when the balance is not negative and no other dispute is open on the wallet. |
| PaymentOutcomes.ClosedIffAllowed | src/modules/transfers/money-requests.service.ts:263-313 | A cancel by the requester or a decline by the payer closes exactly an outstanding, unexpired request, and nothing else changes. |
| PaymentOutcomes.PaymentActsIffPayable | src/modules/transfers/money-requests.service.ts:338-420 | A payment acts exactly when its payer pays an outstanding, unexpired request and may send its amount. |
| PaymentOutcomes.PaymentMovesAmountAndFee | src/modules/transfers/money-requests.service.ts:338-420 | It then moves the request's amount and the fee, under the request's note and the payment's visibility, and the request is paid by that row. |
| PaymentOutcomes.ForeignIffNoneOfTheirs | src/modules/ledger/ledger.service.ts:420-480 | A reused reference is answered as foreign exactly when its row names no wallet of the caller. |
| TransferEffects.TransferEffectIsPosting | src/modules/ledger/ledger.service.ts:1758-1819 | Between two wallets, the balances and entries written are the double-entry posting of the transfer's legs. |
| TransferEffects.ConservedIffWalletsDiffer | src/modules/ledger/ledger.service.ts:1686-1819 | Posting a transfer conserves money exactly when sender and recipient differ. |
| Runs.StepKeepsInv | src/modules/ledger/ledger.service.ts:932-2759 | Every database transaction keeps the whole invariant and unwrites nothing: entries, inserted columns, settled statuses, tiers. |
| Accounting.RowLegsBalance | docs/architecture.md:195-323 | The legs every row calls for balance, both as debits and credits and as float against what is owed. |
| Accounting.OnePosted | src/modules/ledger/ledger.service.ts:1559-1640 | Posting one row's legs keeps the journal, the caches, the balance of entry sets, conservation, suspense and the fee pair. |
| Postings.PostKeepsCache | src/modules/ledger/ledger.service.ts:1592-1627 | Posting any legs keeps every cached and running balance equal to the fold of the entries. |
| Postings.PostImbalance | docs/architecture.md:337-352 | Posting moves float against what is owed by exactly the sum its legs call for. |
| Refunds.RefundedOnce | src/modules/ledger/ledger.service.ts:1230-1263 | Two completed attempts of one funding are the same attempt. |
| Refunds.LateSuccessAlertsAndPostsNothing | src/modules/payments/payments.service.ts:629-647 | A success for an attempt of an already refunded funding posts nothing, and raises the alert exactly when that attempt had failed. |
| Reversals.ReversingKeeps | src/modules/ledger/ledger.service.ts:2042-2073 | Reversing a pending withdrawal gives it exactly one compensating row and gives no other withdrawal one. |
| DisputeRules.OwedNonNegative | src/modules/disputes/disputes.service.ts:316-346 | What a wallet's chargebacks left owing is never negative. |
| DisputeRules.ChargebackKeepsDisputes | src/modules/ledger/ledger.service.ts:2480-2592 | A chargeback within the amount left keeps the cap, one dispute per chargeback, what is owed, and every original's aggregate status. |
| DisputeRules.RulingKeepsDisputes | src/modules/disputes/disputes.service.ts:349-462 | A ruling keeps them too: it changes what is owed only in Cliqpay's favour, and then by the disputed amount. |
| RulingOverlap.AggregateOfSiblings | src/modules/disputes/disputes.service.ts:435-462 | The aggregate the ledger writes is that of the funding's sibling disputes, the one the overlap is about. |
| Guarantees.OverlapsStartRight | src/modules/disputes/disputes.service.ts:435-462 | In every reached state a charged-back funding's status and siblings are a start from which the overlap results hold. |
| RulingOverlap.StatusRightIffLastSawTruly | src/modules/disputes/disputes.service.ts:349-462 | After any interleaving of rulings and chargebacks on one funding, its status is the aggregate exactly when the last to commit was a chargeback or a ruling that saw a dispute open if and only if one now is. |
| RulingOverlap.RightUnlessOvertaken | src/modules/disputes/disputes.service.ts:435-462 | It is right whenever nobody else committed between that ruling's read and its commit. |
| RulingOverlap.WithoutUpholdsAlwaysRight | src/modules/ledger/ledger.service.ts:2661-2680 | Rulings in Cliqpay's favour and chargebacks hold float and alone never leave it wrong. |
| RulingOverlap.UpholdOverwritesChargeback | src/modules/disputes/disputes.service.ts:349-376 | A schedule in which an uphold that read no open sibling overwrites a chargeback's `disputed` with `reversed`. |
| RulingOverlap.UpholdsLeaveDisputed | src/modules/disputes/disputes.service.ts:349-376 | A schedule in which two upholds both write `disputed` although no dispute is left open. |
| RequestRules.SecondPayPostsNothing | src/modules/transfers/money-requests.service.ts:393-395 | A request that is no longer outstanding is never paid again. |
| WalletRules.ChargebackPostedUsers | src/modules/disputes/disputes.service.ts:158-196 | A chargeback keeps every user's wallet bounds, freezing in the same step the owner whose balance it takes below zero. |
| WalletRules.DailyCheckFits | src/modules/kyc/kyc.service.ts:722-748 | A passed check leaves room on the local day it is made, and on every later one. |
| Kyc.RaiseTierTracksDerivation | src/modules/kyc/kyc.service.ts:526-540 | Verifying one more identity never lowers the derived tier, so a stored tier that was the one earned by the identities stays so. |
| Kyc.DayWithinSince | src/modules/ledger/ledger.service.ts:130-147 | Everything debited on the day of a check or later is counted by the query that starts at that day's first instant. |
| LedgerServices.LedgerService.ClaimPendingFunding | src/modules/ledger/ledger.service.ts:1074-1127 | Exactly a pending funding of that reference is claimed; a failure or a wrong amount fails it instead; anything else changes nothing. |
| LedgerServices.LedgerService.PostFundingEntries | src/modules/ledger/ledger.service.ts:1511-1647 | The balances and entries become those of posting the funding's legs, into its wallet or suspense, and the gross is recorded. |
| LedgerServices.LedgerService.PostFunding | src/modules/ledger/ledger.service.ts:943-956 | Credits the claimed funding, or fails it, or changes nothing. |
| LedgerServices.LedgerService.HoldFunding | src/modules/ledger/ledger.service.ts:966-1066 | Holds the claimed funding with its first refund attempt, all or nothing. |
| LedgerServices.LedgerService.CompleteFunding | src/modules/payments/payments.service.ts:470-536 | A report has exactly the effect `LedgerSpec.ReportFunding` states: credited when it fits the cap, held when not, failed on a mismatch. |
| LedgerServices.LedgerService.InitiateFunding | src/modules/payments/payments.service.ts:243-318 | A pending row is inserted only within the cap, pending fundings counted, and under an unused reference. |
| LedgerServices.LedgerService.InsertRefundAttempt | src/modules/ledger/ledger.service.ts:1129-1150 | Inserts the numbered attempt under its derived reference, or nothing when that is taken. |
| LedgerServices.LedgerService.StartRefundAttempt | src/modules/ledger/ledger.service.ts:1160-1189 | A new attempt exists only for a held funding with none in flight, numbered one past the last. |
| LedgerServices.LedgerService.SupersedePendingAttempts | src/modules/ledger/ledger.service.ts:1272-1294 | The loop fails exactly the funding's other pending attempts. |
| LedgerServices.LedgerService.PostRefundEntries | src/modules/ledger/ledger.service.ts:1296-1345 | The balances and entries become those of debiting suspense and crediting float. |
| LedgerServices.LedgerService.SettleRefund | src/modules/ledger/ledger.service.ts:1200-1270 | Settles a pending or failed attempt of a held funding, and nothing else. |
| LedgerServices.LedgerService.PostTransferEntries | src/modules/ledger/ledger.service.ts:1686-1830 | Insufficient funds and a taken reference change nothing; otherwise the row and the effect on the books, for any two wallets. |
| LedgerServices.LedgerService.FinalizeTransfer | src/modules/transfers/transfers.service.ts:252-363 | Frozen, blocked, over the limit, over the cap, short of funds or a taken reference change nothing; otherwise the transfer posts. |
| LedgerServices.LedgerService.PayRequest | src/modules/transfers/money-requests.service.ts:338-420 | The transfer and the request's `paid` commit together or not at all; a replay is answered only with this request's own transfer. |
| LedgerServices.LedgerService.PostWithdrawalEntries | src/modules/ledger/ledger.service.ts:1912-2016 | The balances and entries become those of posting the five withdrawal legs. |
| LedgerServices.LedgerService.PostWithdrawal | src/modules/withdrawals/withdrawals.service.ts:289-317 | Within the daily limit and the balance, under an unused reference, the pending withdrawal and its entries are posted first. |
| LedgerServices.LedgerService.ReverseWithdrawalEntries | src/modules/ledger/ledger.service.ts:2124-2213 | The entries are the mirror image; the balances follow them except fee_expense, which grows. |
| LedgerServices.LedgerService.ReverseWithdrawal | src/modules/ledger/ledger.service.ts:2042-2073 | A pending withdrawal is marked and compensated together; a taken derived reference rolls the mark back. |
| LedgerServices.LedgerService.RecordChargeback | src/modules/disputes/disputes.service.ts:158-215 | Posting, the original's status, the freeze and the dispute row commit together, within the amount left. |
| LedgerServices.LedgerService.RecomputeOriginalTransactionStatus | src/modules/disputes/disputes.service.ts:435-462 | The loop over siblings writes the aggregate: open wins, then upheld, else completed. |
| LedgerServices.LedgerService.ResolveInCliqpaysFavor | src/modules/disputes/disputes.service.ts:378-425 | The compensating credit, the ruling, the aggregate status and the unfreeze, together. |
| LedgerServices.LedgerService.ResolveDispute | src/modules/disputes/disputes.service.ts:313-376 | Only an open dispute is ruled on, and in Cliqpay's favour only at its own amount. |
| LedgerServices.LedgerService.VerifyIdentity | src/modules/kyc/kyc.service.ts:526-540 | The identity is recorded and the tier moves only upwards. |
| LockOrder.KeysInOrder | src/modules/kyc/kyc.service.ts:938-954 | Exactly the two users' keys, each once, strictly ascending, also when they collide. |
| LockOrder.PlanAscends | src/modules/ledger/ledger.service.ts:1518-1558 | Every transaction's locks ascend in one order in which fundings locked first stand before the accounts and fundings ruled on after them. |
| LockOrder.LockPlanCoversPosting | src/modules/ledger/ledger.service.ts:1693-1710 | No posting changes the balance of an account it has not locked. |
| Locks.SomeoneCanStep | src/modules/ledger/ledger.service.ts:1518-1524 | When all plans ascend in one order and no lock is held twice, some transaction can take its next lock or commit, unless all have. |
| Locks.SchedulesAreBounded | src/modules/ledger/ledger.service.ts:1518-1558 | Each step uses up one lock or commit, whoever is chosen. |
| LockOrder.ApartNeverDeadlocks | src/modules/kyc/kyc.service.ts:938-954 | Any transactions that stay apart, any hash, any schedule: never stuck, and all committed after a bounded number of steps. |
| LockOrder.UserOrderDeadlocksIffCrossed | src/modules/kyc/kyc.service.ts:938-940 | Ordered by user instead, the key locks of two transfers have a schedule that deadlocks exactly when their keys cross, which takes two users with one key. |
| LockOrder.NeverDeadlockIffApart | src/modules/disputes/disputes.service.ts:382-404 | For any number of postings, chargebacks and rulings, no schedule deadlocks exactly when no funding one of them locks before the accounts is the original of another's ruling in Cliqpay's favour. |
| LockOrder.SharedFundingDeadlocks | src/modules/ledger/ledger.service.ts:2480-2488 | When a chargeback and such a ruling share an original, a legal schedule from the start ends with both waiting for ever. |
| Witness.ANegativeFrozenWalletIsReached | src/modules/disputes/disputes.service.ts:175-180 | A concrete run reaches a wallet at minus 600 whose owner is frozen. |
| Witness.AMisledTwinIsReached | src/modules/transfers/transfers.service.ts:260-263 | A reachable state at which a posted twin is told its account is frozen. |
| Witness.ATakenReversalIsReached | src/modules/ledger/ledger.service.ts:2155-2175 | A reachable state at which a rejected payout cannot be reversed, a transfer having the derived reference. |
| Witness.ATakenResolutionIsReached | src/modules/ledger/ledger.service.ts:2702-2722 | A reachable state at which a ruling in Cliqpay's favour is refused and the dispute stays open. |
| Witness.AnOverwrittenPaymentIsReached | src/modules/transfers/money-requests.service.ts:263-313 | A reachable state at which a cancel's late save overwrites a payment. |
| LimitLocks.KeysKeepLimits | src/modules/kyc/kyc.service.ts:693-748 | Statement by statement, under the user keys and any hash, no interleaving takes a day's debits above the limit or a balance above the cap but for exempt credits. |
| LimitLocks.TwoWithdrawalsExceedLimit | src/modules/kyc/kyc.service.ts:569-577 | Without the keys, two withdrawals with room for one both pass the check. |
| LimitLocks.TwoCreditsExceedCap | src/modules/kyc/kyc.service.ts:672-688 | Without the keys, two fundings with room for one are both credited. |
| SocialLocks.ProgramsAreDisciplined | src/modules/social/social.service.ts:283-390 | Every transaction takes its locks before the checks that rely on them and its checks before its writes. |
| SocialLocks.StepKeepsInv | src/modules/social/social.service.ts:934-943 | Any statement of any session keeps what committed rows and passed checks establish, for any hash of lock names. |
| SocialLocks.BlocksAndFollowsStayApart | src/modules/social/social.service.ts:361-390 | Under any interleaving no block stands next to a follow either way, and no user follows more than 5000. |
| SocialLocks.NothingCommitsAcrossABlock | src/modules/social/social.service.ts:736-761 | When a reaction, comment or transfer commits, no block between its author and a participant is committed. |
| SocialLocks.NoInteractionAcrossABlock | src/modules/social/social.service.ts:736-761 | So for every transfer, reaction and comment that commits, and every participant but its author. |
| SocialLocks.CommittedFollowIsThere | src/modules/social/social.service.ts:283-331 | A follow that commits adds exactly its own edge, under any interleaving. |
| SocialLocks.CommittedBlockIsThere | src/modules/social/social.service.ts:361-390 | A block that commits adds exactly its own edge and removes exactly the follows of the pair. |
| SocialLocks.CommittedDeleteIsGone | src/modules/social/social.service.ts:333-412 | After an unfollow or unblock commits, whatever came between, the edge it found is gone and it took no other. |
| Feed.MergedPageIsPlainPage | src/modules/social/social.service.ts:194-209 | The first n of the union of per-followee, per-side first n is the first n of all matching posts. |
| Feed.PageSplits | src/modules/social/social.service.ts:519-535 | A page is the next posts in order, its cursor leads to exactly those left, and is null exactly when none are. |
| Feed.WalkListsMatching | src/modules/social/social.service.ts:489-536 | Following the cursors lists every matching post exactly once, newest first. |
| Feed.FeedIsReadable | src/modules/social/social.service.ts:166-192 | A post is in the feed exactly when it is readable, effectively public and free of blocks with the viewer. |
| Feed.WalkShowsExactlyTheVisible | src/modules/social/social.service.ts:166-209 | A walk shows a post exactly when it is public, not hidden, the viewer's own or a followed user's, and no block stands in either direction between the viewer and either participant. |
| RawJson.FindTopLevelKey | src/modules/payments/internal/raw-json.ts:77-107 | The index loop finds where the scan `FindKey` continues, in bounds. |
| RawJson.ScanBracket | src/modules/payments/internal/raw-json.ts:23-51 | The loop stops past the bracket that closes the first, or at the end of the text. |
| RawJson.ScanQuote | src/modules/payments/internal/raw-json.ts:55-66 | The loop stops past the closing quote, escapes skipped, or at the end of the text. |
| RawJson.ExtractTopLevelJsonField | src/modules/payments/internal/raw-json.ts:8-71 | The loops compute `Extract`, whose meaning the next rows give. |
| RawJson.PassesMember | src/modules/payments/internal/raw-json.ts:81-105 | A top-level member with another key is passed over whole, whatever its value contains. |
| RawJson.PastValueOf | src/modules/payments/internal/raw-json.ts:18-70 | The scan to the end of a value stops exactly after a well-formed value. |
| RawJson.ExtractsFirstNamed | src/modules/payments/internal/raw-json.ts:8-107 | For every well-formed object text, the result is the source text of the first top-level member with that key, or null. |
| Money.SpellingIsRead | src/shared/primitives/money.ts:28-45 | Sign, digits and an optional fraction denote whole times the unit plus fraction; text after a second dot is dropped. |
| Money.AcceptedIffWritten | src/shared/primitives/money.ts:32-41 | Exactly those spellings are accepted. |
| Money.RoundTripIffMinorUnits | src/shared/primitives/money.ts:110-118 | Parsing the printed form of any amount gives it back, exactly when the exponent is at least one. |
| Money.PrintingReadIsCanonical | src/shared/primitives/money.ts:110-118 | Printing what was parsed strips leading zeros, fills the fraction and drops the sign of zero. |
| Money.PrintingIsInjective | src/shared/primitives/money.ts:110-118 | Two amounts of one currency never print alike. |

## Left out

- Several currencies and providers: one of each is active, so system accounts are five fixed rows.
- Guarantees.CreditedIsForGood: over runs in which a funding is given up only while pending; what the unguarded update
  does otherwise is `Guarantees.MarkingFailedIsSafeIffUnposted`.
- Guarantees.PaidRequestNamesItsTransfer: in runs, cancel and decline are one step each; what their unlocked read and
  later save can do is `Guarantees.SavedCloseIsSafeIffUndecided`.
- Guarantees.DecidedRequestStays: in such runs; a late save is again `Guarantees.SavedCloseIsSafeIffUndecided`.
- Guarantees.ChargebacksWithinFunding: the aggregate status is for transactions one after the other; overlapping ones
  are `RulingOverlap.StatusRightIffLastSawTruly`.
- LedgerServices.LedgerService.CreateRequest: the pair's request cap and the other admission checks are one boolean.
- LockOrder.NeverDeadlockIffApart: pair keys are assumed apart from user keys, and waits of two inserts on one unique
  reference are not modelled. A pending or held funding is kept apart from ruled ones by its status, which the plans
  do not read.
- RawJson.ExtractsFirstNamed: keys are compared as written, so a key spelled with escapes is another key; text is a
  sequence of characters, so decoding the body as UTF-8 and encoding the slice again is not modelled.
- Tier limits missing from the configuration, which the service treats as a fault.
- Posting bounds of the configuration (minimum amounts, fee tables) and e-mail verification: refusals before any table
  is read.
- Checking the transaction PIN, whose verdict is a parameter, and the checkout link with which a repeated funding
  request is answered.
- The currency check of adding and subtracting amounts, since only one currency is active.
- The polling jobs as loops: each of their steps is a transaction of a run, in any order; and the collections report,
  which only reads.
- The refund retry schedule and its bound of five attempts, which only the polling job's own snapshot enforces.
- Initiating refunds and payouts at the provider, and reconciling against the provider's reported balance.
- The hidden flag and visibility edits of posts, comment lists, reaction counts and notifications.
- Controllers, validation, queues, events, sessions, cryptography and key rotation.
