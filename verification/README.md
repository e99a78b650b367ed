# FlowKey wallet: verified model

FlowKey is the backend of a Nigerian naira wallet. This project models its money and credential state
machines in Dafny and proves what they keep over whole runs. `dafny verify dfyconfig.toml` checks it.

Each service has the same shape. A value holds what the database, Redis or the queue hold; a total function
performs one step on it, with the source's branches in the source's order and every error a reply; `Run`
performs a sequence of steps; and the theorems are about every run. Beside it a class keeps the same tables in
mutable fields, and each of its methods is proved to perform exactly one step.

| part | files | what is at stake |
|---|---|---|
| bill payments | ProviderReply, BillsModel, BillsMoney, BillsProtocol, BillsLimits, BillsRefund, BillsService | a purchase, a chain of reconcile jobs and user requeries resolve one bill against an unreliable provider |
| ledger | LedgerEntries, LedgerModel, LedgerProofs, LedgerSteps, LedgerService | transfers lock, read, check and append while deposits and bills append without a lock |
| transfers | Kyc, TransfersModel, TransfersProofs, TransfersService | daily limits across tier upgrades, and idempotency keys |
| history | WalletFeed, TransferPages | the two-table page cut, and the walk along cursors |
| velocity | FraudVelocity | the sliding window in a Redis sorted set |
| sessions | Sessions | refresh-token rotation, reuse detection, the session limit |
| lockout | Lockout | progressive locks of three secrets, kept in the database and in Redis |
| one-time passwords | Otp | attempt and resend counters with TTLs |
| deposits | Webhooks | repeated deliveries, and credits that get lost |
| Universal IDs | UniversalId | generation, issue and revocation |

Granularity: ledger transactions interleave at begin, each row lock, the balance read, and commit or abort, and
deposits and bill entries fall anywhere between.
Bill work interleaves at every await that matters: before the provider call, after it, between the status
update and the refund or the queue; BillsRefund also parts the refund's lookup from its payment. Everything
else is one atomic call at a time.

What the proofs found in the code:

- A bill whose refund is paid can rest as `failed`: `finalizeBillRefunded` writes `failed` before
  `safeRefundWallet` finds the refund already there. `RestsResolvedIff` says exactly when.
- A replayed session transfer is looked up only after the fraud check, the PIN and the daily limit, and the
  limit counts the original again, so a replay can be refused (`ReplayAnswersIffGuardsPass`,
  `ImmediateReplayAnsweredIff`). It never moves money twice.
- The lookup for an existing refund runs outside the transaction that pays, so two callers can both pay. A bill
  is refunded once exactly when no payment falls between another caller's lookup and payment
  (`RefundedOnceIff`, `RaceRefundsTwice`).
- A refused and refunded bill can be delivered by an answer that comes later, and then counts against the day
  again, so a wallet's open bills can pass its daily limit by such bills and by no more (`DayStaysWithinLimit`,
  `DayCanPassLimit`). The airtime limit is held against the bills of every kind.
- Later answers overwrite the `refunded` status of a paid-out bill (`PaidButOtherwiseIff`).
- Bill purchases debit the ledger without asking it, so a ledger balance can fall below zero by a wallet's
  unrefunded bills, and by no more (`LedgerNeverOverdrawn`, `BillCanOverdraw`).
- Rotation stores the device id the client sends, and reuse detection revokes by device, so a lineage moved to
  another device survives a replay; a replay at `unlockWithPasscode` revokes nothing (`ReplayRevokesFamily`).
- Two places compare a secret and record nothing: `revokeUniversalId`, which does not check the lock either, and
  the PIN check of the bill payments (`UncountedNeverLock`, `DatabaseLockHolds`).
- The UPP uses the passcode's Redis key, so wrong UPPs lock the login, and `resetPasscode` leaves that key
  (`LockedIff`, `UppFailuresLockLogin`, `ResetCanLeaveALock`). The 24-hour lock of the schedule cannot be
  reached (`DayLockIsUnreachable`).
- The Universal ID velocity counter is kept under the text as typed, so its limit of 3 holds per spelling and
  the ID's true limit is its wallet's 10 (`IdLimitHolds`, `SpellingsReachTen`).
- The attempt counter of a one-time password is set with whole seconds and can end just before the code. A code
  is guessed at more than otpMaxAttempts times exactly when that happens (`ExceedsIffForgotten`), and up to
  2 * otpMaxAttempts - 1 times (`CodeBounds`, `AttemptBoundIsTight`).
- A Providus payload without `transaction_id` gets its id from the clock, so its repeat is credited again
  (`RepeatIsCreditedIff`, `RepeatWithoutIdCreditsTwice`).
- A Providus delivery is recorded before its credit, and its deposit row is written as completed outside the
  credit's transaction, so a credit that throws is lost for good (`CreditedUnlessLost`, `LostStaysLost`).
- Cursor paging of transfers by `created_at` alone skips rows that share the instant of a page's last row
  (`WalkIsCompleteIff`).
- An empty object or array from the provider counts as a refusal and refunds the bill: it is well-formed and
  says neither delivered nor pending (`VerdictsPartitionOutcomes`).
- The repository's README (line 38) says balances are never a stored column; bills debit
  `wallets.available_balance`. The model follows the code.

Beside the theorems over runs, every operation has a lemma that says what it does without its steps: which
balances move, which rows change, and the condition for each answer, in terms of fields, of history or of the
database (`DecisionsFollowReply`, `CallMovesBalance`, `IssuesIff`, `FailureLocksIff`, `ChargeCreditsIff`,
`SubmissionIsAnswered`, `CompletedIff` and their like). The class methods refine those operations.

Conventions: amounts are integers in kobo; identifiers are naturals or positions in a table; hashes and
generated tokens are inputs; a calendar day is 86,400,000 ms; an absent or empty idempotency key of a bill is
`None`; every table constraint a step relies on (unique references and keys, positive amounts) is part of that
step.

## Model

| member | source | states |
|---|---|---|
| ProviderReply.VerdictsPartitionOutcomes | src/features/bills/bills.utils.ts:9-29 | Every provider outcome, a throw included, is exactly one of delivered, pending, failed and uncertain, although the code tests them one after another. |
| ProviderReply.SitesAgree | src/workers/bill-reconcile.worker.ts:57-103 | The purchase, the reconcile worker and the user requery, with their different test orders, deliver and refund on exactly the same outcomes and hold or retry on the rest. |
| ProviderReply.ReplyMeansWhatItSays | src/features/bills/bills.utils.ts:9-29 | Every reply, from its fields: delivered if and only if code reads 000 and the transaction status reads delivered or successful or is blank; pending if and only if code reads 099 or the status reads pending; a refusal if and only if it is an object or array of which neither holds. |
| BillsMoney.RunConservesMoney | src/features/bills/bills.service.ts:85-159 | In any interleaving of purchases, reconcile attempts and requeries, each refund taken in one step, available_balance plus the amounts of the wallet's unrefunded bills never changes, nor does available_balance minus the ledger sum. |
| BillsMoney.RunKeepsMoneyInv | src/features/bills/bills.service.ts:85-107 | In any such interleaving no available_balance goes below zero, every task, job and entry agrees with its bill row, and each bill has one debit and at most one refund. |
| BillsMoney.RefundMirrorsDebit | src/features/bills/bills.service.ts:113-156 | With each refund in one step, a refund is single and has the wallet and amount of the bill's own debit, whether the job's copy or the stored row led to it. |
| BillsMoney.LookupFindsRefund | src/features/bills/bills.service.ts:119-128 | The refund lookup by bill, type and reference finds an entry exactly when the bill has been credited. |
| BillsProtocol.OneQueuedJob | src/features/bills/bills.service.ts:165-184 | A bill has at most one queued reconcile job, numbered 1 to 6, and while it is queued no purchase or worker task is at work on the bill. |
| BillsProtocol.ChainIsBounded | src/features/bills/bills.service.ts:39-46 | The delays scheduled for a bill are a prefix of the six in the schedule, so the chain ends within 6 attempts and 28,260,000 ms. |
| BillsProtocol.UndrivenBillIsResolved | src/workers/bill-reconcile.worker.ts:43-107 | A bill with nothing queued and nobody at work on it is delivered, refunded, handed to manual reconciliation, or failed with its refund already paid. |
| BillsProtocol.RestsResolvedIff | src/features/bills/bills.service.ts:235-254 | Such a bill is delivered, refunded or handed to manual reconciliation if and only if the last answer that decided anything for it was not a refusal acted on when the refund entry was already there. |
| BillsProtocol.PaidButOtherwiseIff | src/features/bills/bills.service.ts:190-278 | At every moment of every run a bill's refund is paid and its status does not say so if and only if the last answer that decided anything for it was acted on after the refund had been paid. |
| BillsProtocol.RefundedSaysPaid | src/features/bills/bills.service.ts:150-155 | A bill says refunded exactly when its refund is paid and nothing was decided for it since. |
| BillsProtocol.WithoutOverlapStatusTellsAll | src/features/bills/bills.service.ts:889-911 | When work on one bill never overlaps, a resting bill is never merely failed, and it has its refund exactly when its status is refunded. |
| BillsProtocol.OverlapLeavesFailed | src/features/bills/bills.service.ts:235-254 | A concrete run in which a requery overlaps the purchase and a paid-out bill rests as failed. |
| BillsProtocol.RefundNeedsRefusal | src/features/bills/bills.service.ts:400-430 | No refund is ever paid unless the provider gave a well-formed refusal for that bill: a throw, a malformed, pending or delivered reply never leads to one. |
| BillsProtocol.NeverDeliveredAndRefunded | src/features/bills/bills.service.ts:898-906 | If the provider never both confirms and refuses one bill, no bill is ever both delivered and refunded. |
| BillsProtocol.AnswersWereGiven | src/features/bills/bills.service.ts:380-398 | Each answer those statements speak of was given by the provider in the run, to a call made for that very bill. |
| BillsProtocol.OneBillPerKey | src/features/bills/bills.service.ts:320-330 | However often a user repeats an idempotency key, it buys one bill. |
| BillsProtocol.DecisionsFollowReply | src/features/bills/bills.service.ts:400-430 | At all three sites, in terms of the reply's fields: the bill becomes delivered and the work ends when the reply says so, it becomes failed with its refund next if and only if the reply refuses, and the dispatch itself moves no money. |
| BillsProtocol.WaitingFollowsReply | src/workers/bill-reconcile.worker.ts:69-107 | What each site does with a reply that decides nothing: the purchase holds the bill as pending or uncertain and goes on to job 1, the worker goes on to the next number or after the sixth hands the bill over, the requery leaves it. |
| BillsProtocol.JobCallsIff | src/workers/bill-reconcile.worker.ts:25-54 | A job leaves the queue and calls the provider, with the bill's own wallet, amount and reference, if and only if the bill is not delivered, refunded or handed over. |
| BillsProtocol.RequeryCallsIff | src/features/bills/bills.service.ts:889-898 | A requery calls the provider if and only if the bill is the user's own and neither delivered nor refunded. |
| BillsProtocol.RefundPaysIff | src/features/bills/bills.service.ts:113-159 | A refund pays the bill's amount into the bill's wallet, appends its one credit entry and sets the status if and only if the bill has no credit yet; otherwise it changes nothing. |
| BillsProtocol.RetryIsQueued | src/features/bills/bills.service.ts:165-184 | A held or retried bill gets one job of the next number, after 1, 5, 15, 30, 60 or 360 minutes, and nothing else changes. |
| BillsLimits.PurchaseStartsIff | src/features/bills/bills.service.ts:301-371 | A purchase starts if and only if its key is new to the user, its amount fits what the wallet's open bills of the day leave of the limit, and the balance covers it; then exactly that wallet is debited, and bill, entry and caller carry its amount and reference. |
| BillsLimits.DayStaysWithinLimit | src/features/bills/bills.service.ts:519-547 | In any interleaving a wallet's open bills of a day exceed its limit by no more than the amounts of given-up bills that a later answer brought back; without one they stay within it. |
| BillsLimits.DayCanPassLimit | src/features/bills/bills.service.ts:889-911 | That can happen: a concrete run, with a requery beside a purchase, in which 120 are open under a limit of 100. |
| BillsRefund.RefundedOnceIff | src/features/bills/bills.service.ts:119-156 | With the refund lookup and the paying transaction as separate steps of any interleaving, a bill is refunded at most once if and only if no payment for it is made by a caller in whose lookup-to-payment window another payment for it fell; each such payment is exactly one refund more. |
| BillsRefund.LateIffOverlap | src/features/bills/bills.service.ts:119-156 | A payment finds the refund entry already there if and only if another payment for the bill came between its own lookup and itself. |
| BillsRefund.RaceCostsLateMoney | src/features/bills/bills.service.ts:135-156 | With separate steps, available_balance plus the unrefunded bills grows by exactly the late payments. |
| BillsRefund.WithoutLatePaysStepsJoin | src/features/bills/bills.service.ts:113-159 | A run without late payments ends in the state of the run that takes each refund in one step, so every theorem about the one-step protocol holds of it. |
| BillsRefund.QueueStaysSingle | src/features/bills/bills.service.ts:165-184 | With refunds in two steps, a bill still has at most one queued job, numbered 1 to 6, and no purchase or worker beside it. |
| BillsRefund.ChainStaysBounded | src/features/bills/bills.service.ts:39-46 | With refunds in two steps, the scheduled delays of a bill still are a prefix of the six and sum to at most 28,260,000 ms. |
| BillsRefund.EveryRefundHadARefusal | src/features/bills/bills.service.ts:400-430 | Even a second refund is paid only after a well-formed refusal of its bill. |
| BillsRefund.NeverBothInRace | src/features/bills/bills.service.ts:898-906 | With refunds in two steps and a provider that never both confirms and refuses a bill, no bill is both delivered and refunded. |
| BillsRefund.RaceRefundsTwice | src/features/bills/bills.service.ts:119-136 | A concrete run: a purchase and a requery both look before either pays, and a debit of 40 is refunded twice. |
| BillsProtocol.PlansFit | src/workers/bill-reconcile.worker.ts:69-107 | Whoever dispatches, a refund plan follows only a refusal, a delivery only a confirmation, and the next attempt number is one more than the last. |
| BillsService.BillStore.AtomicDebit | src/features/bills/bills.service.ts:85-94 | Debits exactly when the balance covers the amount and reports it; other wallets are untouched. |
| BillsService.BillStore.AtomicCredit | src/features/bills/bills.service.ts:99-107 | Adds the amount to one wallet. |
| BillsService.BillStore.SafeRefundWallet | src/features/bills/bills.service.ts:113-159 | Lookup and transaction in turn: nothing when the refund entry exists, else credit, entry and status together. |
| BillsService.BillStore.RefundTransaction | src/features/bills/bills.service.ts:135-156 | The transaction, which credits, appends the entry and sets the status without looking again. |
| BillsService.BillStore.ExecutePurchase | src/features/bills/bills.service.ts:301-371 | The stretch before the provider call is one protocol step; it starts exactly when key, limit and balance allow, and a repeated key answers with that user's bill. |
| BillsService.BillStore.ProviderReturns | src/features/bills/bills.service.ts:384-398 | Records the outcome of the call, thrown or returned. |
| BillsService.BillStore.FinishPurchase | src/features/bills/bills.service.ts:400-430 | The purchase's dispatch is the protocol's finalize step. |
| BillsService.BillStore.FinalizeBillSuccess | src/features/bills/bills.service.ts:190-212 | Writes delivered and ends the work. |
| BillsService.BillStore.FinalizeBillPending | src/features/bills/bills.service.ts:214-233 | Writes pending and goes on to enqueue attempt 1. |
| BillsService.BillStore.FinalizeBillRefunded | src/features/bills/bills.service.ts:235-254 | Writes failed and goes on to the refund. |
| BillsService.BillStore.PayRefund | src/features/bills/bills.service.ts:252-252 | The refund that follows a refusal, with the wallet, amount and reference the caller holds, is the protocol's refund step. |
| BillsService.BillStore.FinalizeBillUncertain | src/features/bills/bills.service.ts:256-278 | Writes provider_uncertain and goes on to enqueue attempt 1; no refund. |
| BillsService.BillStore.EnqueueReconcile | src/features/bills/bills.service.ts:165-184 | Queues the job with the bill's wallet, amount and reference and the schedule's delay. |
| BillsService.BillStore.StartReconcile | src/workers/bill-reconcile.worker.ts:25-54 | Takes the job and goes on to the provider exactly when the bill exists and is unresolved. |
| BillsService.BillStore.FinishReconcile | src/workers/bill-reconcile.worker.ts:69-107 | The worker's dispatch, with its reschedule and give-up branches, is the protocol's finalize step. |
| BillsService.BillStore.StartRequery | src/features/bills/bills.service.ts:889-898 | Goes on to the provider exactly for the user's own bill that is neither delivered nor refunded. |
| BillsService.BillStore.FinishRequery | src/features/bills/bills.service.ts:898-911 | The requery's dispatch is the protocol's finalize step; a throw changes nothing. |
| LedgerProofs.LedgerNeverOverdrawn | src/features/transfers/transfers.service.ts:401-440 | In every interleaving of transfers, reversals, aborts, unlocked deposits, bill debits and bill refunds a wallet's credits minus debits fall below zero by no more than its unrefunded bills have taken. |
| LedgerProofs.WithoutBillsNotNegative | src/features/transfers/transfers.service.ts:401-440 | So a wallet without an unrefunded bill never has a negative ledger balance, at any moment of any run. |
| LedgerProofs.BillCanOverdraw | src/features/bills/bills.service.ts:360-371 | The bound is reached: a bill purchase asks available_balance and not the ledger, and its debit alone takes an empty ledger below zero by its amount. |
| LedgerProofs.ReadIsLowerBound | src/features/transfers/transfers.service.ts:210-222 | A balance read under the row lock stays a lower bound until the lock's holder acts, whatever other transactions, deposits and bills do, less only what new unrefunded bills of the wallet take meanwhile. |
| LedgerProofs.OthersOnlyRaise | src/features/deposits/deposits.service.ts:459-495 | While a row is held, no step of another transaction, deposit or bill frees it, or lowers the wallet's balance apart from its unrefunded bills. |
| LedgerProofs.CommitMovesAmount | src/features/transfers/transfers.service.ts:401-440 | A commit moves the whole amount from sender to recipient, touches no other wallet and frees its rows. |
| LedgerProofs.TotalIsConserved | src/features/transfers/transfers.service.ts:643-645 | Over any run the total of all wallets is the opening total plus funding plus reversals minus bank debits, and the net of the bills' entries. |
| LedgerProofs.RunByType | src/features/transfers/transfers.service.ts:786-788 | Over any run funding and reversal totals never fall, the bank total never rises, internal transfers add up to nothing, bills do either, and the ledger only grows at its end. |
| LedgerProofs.InternalTransfersNetToZero | src/features/transfers/transfers.service.ts:434-440 | In every run the entries of each internal transfer net to zero. |
| LedgerProofs.SoloTransferPaysIffCovered | src/features/transfers/transfers.service.ts:404-440 | A transfer with no rival pays exactly when the sender's balance covers it, and leaves no lock behind. |
| LedgerSteps.LocksWhatItWrites | src/features/transfers/transfers.service.ts:402-404 | The wallet rows a transaction locks are exactly the wallets its entries touch. |
| LedgerSteps.PayersAreApart | src/features/transfers/transfers.service.ts:401-440 | In every run no wallet is written by two transactions that are both past their balance check. |
| LedgerSteps.StepMovesBalance | src/features/transfers/transfers.service.ts:401-440 | Every step, every wallet: a commit under its locks moves the amount between its parties, a deposit, a bill or a bill's refund moves its amount in or out of the wallet it names, and nothing else moves a balance. |
| LedgerSteps.StepAppends | src/features/transfers/transfers.service.ts:408-440 | A step appends two entries for an internal transfer, one for anything else that moves money and none otherwise, with positive amounts, the step's own number, moment and type; no earlier entry changes. |
| LedgerSteps.BalanceIsWhatMoved | src/features/transfers/transfers.service.ts:210-222 | In every interleaving a balance is the opening one and what the steps moved. |
| LedgerSteps.BeginAndLockIff | src/features/transfers/transfers.service.ts:402-404 | A transaction starts unless it pays its own sender, and takes a row of a wallet it writes if and only if nobody holds it. |
| LedgerSteps.CheckDecides | src/features/transfers/transfers.service.ts:210-231 | With its rows held a payer goes on if and only if the balance covers the amount; otherwise it ends and exactly its rows are freed. |
| LedgerSteps.EndsAndFrees | src/features/transfers/transfers.service.ts:408-440 | A commit that may happen, or an abort, ends exactly its own transaction and frees exactly its rows. |
| LedgerService.Ledger.BeginTransaction | src/features/transfers/transfers.service.ts:321-323 | Starts a transaction unless sender and recipient are the same. |
| LedgerService.Ledger.LockRow | src/features/transfers/transfers.service.ts:402-404 | Locks a free row; a held one must be waited for. |
| LedgerService.Ledger.CheckBalance | src/features/transfers/transfers.service.ts:210-231 | Goes on exactly when the balance read under the lock covers the amount, else ends the transaction. |
| LedgerService.Ledger.CommitTransaction | src/features/transfers/transfers.service.ts:408-440 | Appends the transaction's entries and frees its rows; an amount that is not positive is rolled back. |
| LedgerService.Ledger.CreditDeposit | src/features/deposits/deposits.service.ts:459-495 | Appends one funding credit without any lock. |
| LedgerService.Ledger.DebitBill | src/features/bills/bills.service.ts:360-371 | Appends the debit of a bill purchase without any lock or look at the ledger. |
| LedgerService.Ledger.CreditBill | src/features/bills/bills.service.ts:135-149 | Appends the credit of a bill's refund. |
| Kyc.LimitsAreMonotone | src/features/kyc/kyc.types.ts:14-33 | No channel has a lower limit at a higher tier. |
| Kyc.TierCountsPasses | src/features/kyc/kyc.service.ts:118-129 | Each tier gained is one passed attempt: tiers rise one at a time and never fall. |
| Kyc.CooldownsAreWaitedOut | src/features/kyc/kyc.service.ts:131-145 | Over any run with a non-decreasing clock every failed attempt has a cooldown and no attempt falls inside an earlier attempt's cooldown for its target, though the code looks only at the latest failed or errored one. |
| Kyc.VerifiedIff | src/features/kyc/kyc.service.ts:103-182 | After any run a request is verified if and only if it asks for the next tier and no cooldown for it is running; the tier rises if and only if that succeeds, and the attempt is filed with its time, its status and its cooldown. |
| Kyc.FailureHoldsForCooldown | src/features/kyc/kyc.service.ts:131-145 | After a failed or unavailable verification nothing asked before the cooldown's end changes anything, and the target is told to wait until then. |
| Kyc.LimitsInNaira | src/features/kyc/kyc.types.ts:14-33 | The daily limits of the three tiers, in naira. |
| Kyc.KycAccount.UpgradeKyc | src/features/kyc/kyc.service.ts:103-182 | One upgrade request changes tier and attempts as the specification says and answers accordingly. |
| TransfersProofs.DailyLimitsHold | src/features/transfers/transfers.service.ts:180-208 | For every wallet, calendar day and channel the accepted debits stay within the limit of the current tier, across session and Universal ID transfers, reversals and tier upgrades. |
| TransfersProofs.OneDebitPerKey | src/features/transfers/transfers.service.ts:352-393 | Any number of calls with one sender and key, on any path, leave one transaction and one debit at most, and the lookup finds it. |
| TransfersProofs.UidReplayIsRefused | src/features/transfers/transfers.service.ts:1164-1279 | A Universal ID transfer is answered once: after it is accepted, whatever else is called, the same key is refused for good on these paths and moves nothing. |
| TransfersProofs.ReversedOnce | prisma/schema.prisma:606-617 | However often a reversal is asked for, a transaction is credited back at most once, and exactly when it has its row in the reversals table. |
| TransfersProofs.UsedKeyMovesNothing | prisma/schema.prisma:320 | A transfer call whose key any transaction already carries changes nothing. |
| TransfersProofs.ReplayAnswersIffGuardsPass | src/features/transfers/transfers.service.ts:337-393 | A session replay answers with the stored transaction if and only if it passes the guards before the lookup; otherwise it is refused, and either way nothing moves. |
| TransfersProofs.ImmediateReplayAnsweredIff | src/features/transfers/transfers.service.ts:348-365 | An accepted transfer repeated at once is answered if and only if twice its amount still fits the day's limit. |
| TransfersProofs.ReplayCanHitTheLimit | src/features/transfers/transfers.service.ts:348-365 | A concrete accepted transfer whose immediate replay is refused. |
| TransfersProofs.TransferShape | src/features/transfers/transfers.service.ts:1164-1279 | On all four paths a call that changes anything passed limit, balance and constraints, and adds one row with amount equal to fee plus net amount and its postings. |
| TransfersProofs.NewTransferAcceptedIff | src/features/transfers/transfers.service.ts:281-472 | A session transfer under a new key is accepted if and only if guards, balance and constraints allow it, and its row has the call's amount, parties, reference and type, and the fee of 50 naira exactly for a tier-1 bank transfer. |
| TransfersProofs.UidTransferAcceptedIff | src/features/transfers/transfers.service.ts:1338-1442 | The same for the Universal ID paths, with the same fee. |
| TransfersProofs.RefusedForFirstUnmet | src/features/transfers/transfers.service.ts:281-408 | On all four paths a transfer is answered if and only if nothing the path asks for is unmet; otherwise it is refused with the reason of the first unmet demand, in the path's own order, and changes nothing. |
| TransfersProofs.CallMovesBalance | src/features/transfers/transfers.service.ts:751-825 | Every call, every wallet: an accepted transfer moves its amount from sender to recipient, or out; accepted funding or a reversal adds its amount to the named wallet alone; any other call moves no balance. |
| TransfersProofs.BalanceIsWhatWasPosted | src/features/transfers/transfers.service.ts:210-222 | Over any calls a wallet's balance changes by what the accepted ones are for, and by nothing else. |
| TransfersProofs.CreditPostedIff | src/features/transfers/transfers.service.ts:751-825 | After any calls funding and reversals are accepted if and only if the amount is positive, the reference new and, for a reversal, the original there and not reversed; the row says what the call said. |
| TransfersService.TransferStore.CheckKycDailyLimit | src/features/transfers/transfers.service.ts:180-208 | Allows exactly what fits the limit with today's debits of the channel. |
| TransfersService.TransferStore.ExecuteInternalTransfer | src/features/transfers/transfers.service.ts:281-472 | Guards in the source's order, lookup by key, then the transfer. |
| TransfersService.TransferStore.InitiateBankTransfer | src/features/transfers/transfers.service.ts:523-676 | The same for bank transfers, with the limit checked before the PIN and the tier-1 fee. |
| TransfersService.TransferStore.ExecuteUidInternalTransfer | src/features/transfers/transfers.service.ts:1164-1279 | The Universal ID path, without a lookup by key. |
| TransfersService.TransferStore.ExecuteUidBankTransfer | src/features/transfers/transfers.service.ts:1338-1442 | The Universal ID bank path. |
| TransfersService.TransferStore.ReverseTransfer | src/features/transfers/transfers.service.ts:751-825 | Reversal row, credit, reversed status and reversals entry together, or nothing when the original is missing or already reversed. |
| WalletFeed.PageIsCutOfFullMerge | src/features/wallet/wallet.service.ts:163-259 | The page merged from limit + 1 rows of each table is the first limit rows of the full sorted merge below the cursor, hasMore tells exactly whether more exist, and the cursor is the last row shown. |
| WalletFeed.SortedSorts | src/features/wallet/wallet.service.ts:241-246 | The sort is a permutation in the comparator's order: newest first, then highest id. |
| WalletFeed.PageIsInOrder | src/features/wallet/wallet.service.ts:163-259 | A page is newest first and highest id first within an instant, as long as the limit and the tables allow, and hasMore and the cursor tell exactly whether and from where more follows. |
| WalletFeed.PageShowsNewest | src/features/wallet/wallet.service.ts:163-259 | A page shows only rows of the two tables from before the cursor, none twice, and leaves none out that comes before one it shows. |
| TransferPages.WalkIsCompleteIff | src/features/transfers/transfers.service.ts:886-945 | Following next_cursor to null terminates, and lists every matching row once in order if and only if no page boundary falls between two rows of the same instant. |
| TransferPages.DistinctTimesWalkCompletely | src/features/transfers/transfers.service.ts:886-945 | With distinct creation times the walk is always complete. |
| TransferPages.CursorAdvances | src/features/transfers/transfers.service.ts:918-945 | What is ahead of a page's cursor is what was ahead before, less the page and less any row of the page's last instant. |
| TransferPages.PartiesSeeTheirRows | src/features/transfers/transfers.service.ts:900-912 | A row is listed as sent for its sender, as received for its receiver, as either for both, and for nobody else; a deleted one for nobody. |
| TransferPages.FiltersKeep | src/features/transfers/transfers.service.ts:914-917 | The type and status filters keep exactly the rows of that type and status. |
| TransferPages.AheadIsEarlier | src/features/transfers/transfers.service.ts:919-925 | What follows a cursor is exactly what is listed from before the moment of the row it names. |
| FraudVelocity.HourlyLimitsHold | src/features/transfers/fraud.service.ts:33-60 | With Redis working and a non-decreasing clock every 3600-second window admits a wallet at most 10 internal and 5 bank transfers, and one spelling of a Universal ID at most 3. |
| FraudVelocity.AllowedIffHoursHaveRoom | src/features/transfers/fraud.service.ts:33-60 | After any run a check is allowed if and only if the hour up to it holds at most 10 attempts of the wallet (5 for a bank transfer) and, with a typed Universal ID, at most 3 of that spelling, itself included. |
| FraudVelocity.IdLimitHolds | src/features/transfers/transfers.service.ts:1186 | A Universal ID in all its spellings gets at most the 10 internal transfers of its owner's wallet: the counter is kept under the typed text, while the sender is found by the trimmed, upper-cased one. |
| FraudVelocity.SpellingsReachTen | src/features/transfers/transfers.service.ts:1110 | That bound is reached: up to ten spellings of one ID, one transfer each, are all allowed in the same second. |
| FraudVelocity.OneSpellingLimitHolds | src/features/transfers/fraud.service.ts:47-60 | An ID that is always typed the same way gets at most 3 internal transfers in any window. |
| FraudVelocity.CountIsWindow | src/features/transfers/fraud.service.ts:134-151 | The pruned set's count is the number of attempts of the full history in the hour up to now, despite pruning and key expiry. |
| FraudVelocity.WindowAdmitsAtMost | src/features/transfers/fraud.service.ts:37-44 | If each admitted attempt found at most the limit in its own hour, every window holds at most the limit. |
| FraudVelocity.ChecksAreAccounted | src/features/transfers/fraud.service.ts:134-151 | In every run of checks each key's sorted set is the pruned history of that key's own attempts, and a check was allowed only if its count was within the limit. |
| FraudVelocity.AttemptsAreMade | src/features/transfers/fraud.service.ts:33-60 | In every run a wallet's attempts are all its checks of the channel, refused ones too, and a typed ID's are those that found room in their wallet's hour. |
| FraudVelocity.VerdictReports | src/features/transfers/fraud.service.ts:62-81 | An allowed check is flagged if and only if its amount is over 500,000 naira, and reports its wallet's attempts of the hour. |
| FraudVelocity.FailureAllowsAll | src/features/transfers/fraud.service.ts:152-160 | While Redis fails every check is allowed with a count of zero and leaves nothing behind. |
| FraudVelocity.FraudService.IncrementVelocity | src/features/transfers/fraud.service.ts:134-160 | Prunes, adds, counts and renews the expiry; a Redis failure counts as zero and changes nothing. |
| FraudVelocity.FraudService.CheckInternalTransferFraud | src/features/transfers/fraud.service.ts:21-81 | Blocks over 10 attempts, then over 3 for the Universal ID, and flags large amounts. |
| FraudVelocity.FraudService.CheckBankTransferFraud | src/features/transfers/fraud.service.ts:87-126 | Blocks over 5 attempts and flags large amounts. |
| Sessions.SessionLimitHolds | src/features/auth/session.service.ts:50-82 | In every run no user has more than maxSessionsPerUser unrevoked sessions. |
| Sessions.OneActivePerLineage | src/features/auth/session.service.ts:167-197 | Each refresh-token lineage has at most one active session, its newest. |
| Sessions.RevokedTokenNeverIssues | src/features/auth/session.service.ts:131-159 | Once a token has been rotated or revoked, no later rotation or unlock with it issues anything: the one answers reuse, the other a revoked session. |
| Sessions.ReplayRevokesFamily | src/features/auth/session.service.ts:144-159 | Replaying a revoked token leaves no active session for that user and device if and only if it reaches rotateRefreshToken or there was none; the lineage's tip survives if and only if it was active and the replay was an unlock or the tip is on another device. |
| Sessions.OneDeviceFamilyDies | src/features/auth/session.service.ts:144-159 | In a lineage that stayed on one device a replay ends a member's session if and only if it reaches rotateRefreshToken. |
| Sessions.ReplayMissesOtherDevice | src/features/auth/session.service.ts:185-197 | A concrete lineage moved to a second device by rotation, whose tip survives the replay. |
| Sessions.UnlockReplayMissesTip | src/features/auth/auth.service.ts:592-600 | A concrete lineage on one device whose tip survives a replay at the unlock. |
| Sessions.IssuesIff | src/features/auth/session.service.ts:124-197 | After any run a rotation or an unlock issues a session if and only if the token is stored, not revoked and not past its end, the new token is fresh and, at an unlock, the passcode is right. The new row is the same user's with the client's device, token and expiry, and exactly the old session ends. |
| Sessions.RefusedRotationIsExact | src/features/auth/session.service.ts:131-165 | A refused rotation: reuse ends exactly the sessions of that user and device, an expired token changes nothing, a taken new token costs exactly the old session. |
| Sessions.RefusedUnlockIsExact | src/features/auth/auth.service.ts:592-660 | A refused unlock: a revoked or expired token changes nothing whatever the passcode, and a wrong passcode ends the session if and only if it hard-locks. |
| Sessions.LoginEvictsOldest | src/features/auth/session.service.ts:41-82 | After any run a login goes through if and only if its token is fresh; a user at the limit loses exactly the oldest unrevoked session, even to a login that fails, and nobody else loses any. |
| Sessions.ZeroLimitAdmitsNobody | src/features/auth/session.service.ts:50-70 | With a limit of no sessions every login fails. |
| Sessions.RevokingEndsExactly | src/features/auth/session.service.ts:232-317 | Each revoking call ends exactly the sessions it names. |
| Sessions.RevokingReports | src/features/auth/session.service.ts:248-282 | The bulk revocations report exactly how many sessions they ended and leave none, or the current one alone. |
| Sessions.SessionService.CreateDeviceSession | src/features/auth/session.service.ts:41-82 | Revokes the oldest session at the limit, then inserts. |
| Sessions.SessionService.RotateRefreshToken | src/features/auth/session.service.ts:124-197 | Reuse revokes the device's sessions; a live token is revoked and replaced; an expired or unknown one changes nothing. |
| Sessions.SessionService.UnlockWithPasscode | src/features/auth/auth.service.ts:565-712 | Refuses an unknown, revoked or expired token without further effect, ends the session when the passcode hard-locks, and rotates on the right passcode. |
| Sessions.SessionService.RevokeSession | src/features/auth/session.service.ts:232-242 | Revokes the token's session. |
| Sessions.SessionService.RevokeAllSessions | src/features/auth/session.service.ts:248-258 | Revokes the user's sessions and returns the number. |
| Sessions.SessionService.RevokeOtherSessions | src/features/auth/session.service.ts:265-282 | The same, sparing the current one. |
| Sessions.SessionService.RevokeSessionById | src/features/auth/session.service.ts:288-317 | Refuses the current session and other users' sessions, else revokes the one. |
| Lockout.CountersAlwaysFit | src/features/auth/lockout.service.ts:138-226 | In every run, for passcode, UPP and PIN alike, the lockout count covers the recorded failures (a fifth of them, or all but two for the PIN), and the hard lock holds exactly when the lockout count has reached its limit. |
| Lockout.StreakHardLocks | src/features/auth/lockout.service.ts:10-19 | Of the comparisons that record their result, 15 wrong passcodes or UPPs or 4 wrong PINs without a success always hard-lock, and no streak is longer. |
| Lockout.UncountedNeverLock | src/features/bills/bills.service.ts:489-517 | Any number of wrong PINs at bill payments, or of wrong passcodes at Universal ID revocations, is compared, counts for nothing and locks nothing. |
| Lockout.DayLockIsUnreachable | src/features/auth/lockout.service.ts:176-190 | The 24-hour timed lock is never applied. |
| Lockout.LockoutCountIsLocksSet | src/features/auth/auth.service.ts:517-519 | In every run, successes included, a secret's lockout count is the number of locks, timed or hard, that its failures have set since its last reset. |
| Lockout.FailureLocksIff | src/features/auth/lockout.service.ts:138-226 | After any run a recorded failure locks if and only if it is the fifth, tenth or fifteenth in a row, or the PIN's third or later; the lock is hard if and only if it is the third since the last reset (the PIN's second), however many successes lie between; else it lasts 15, 60 or 30 minutes and the key shows its end. |
| Lockout.SuccessKeepsLockoutCount | src/features/auth/auth.service.ts:517-519 | A recorded success clears streak and lock, keeps the lockout count and touches no other secret. |
| Lockout.ThirdRoundLocksHard | src/features/auth/auth.service.ts:459-521 | A concrete run: three rounds of five wrong passcodes with a login after each of the first two end in a hard lock. |
| Lockout.ComparedUnlessLocked | src/features/auth/lockout.service.ts:44-91 | Each site compares the secret exactly when the lock it looks at is off, and answers as the comparison went. |
| Lockout.DatabaseLockHolds | src/features/auth/lockout.service.ts:66-90 | Until a lock in the database runs out or is reset, whatever keys are lost and whatever the other secrets do, the columns do not move, and of the events that would compare the secret exactly the Universal ID revocations get to. |
| Lockout.HardLockHolds | src/features/auth/lockout.service.ts:69-78 | A hard lock has no end: every lock-checking event is refused until the secret is reset. |
| Lockout.LockedIff | src/features/auth/lockout.service.ts:44-91 | In every run, resets and lost keys included, a submission is locked out if and only if the secret's own columns lock it, or a live key does that the other secret of its factor wrote or that a reset left behind. |
| Lockout.PinKeyIsACache | src/features/auth/lockout.service.ts:49-64 | The PIN has its key to itself, so until a reset Redis only repeats what the columns say. |
| Lockout.UppFailuresLockLogin | src/features/transfers/transfers.service.ts:1066-1087 | Five wrong UPPs refuse the login for 15 minutes although its own columns are clear. |
| Lockout.ResetCanLeaveALock | src/features/auth/auth.service.ts:851-861 | A user who resets the passcode right after five wrong ones stays locked out for the rest of the 15 minutes. |
| Lockout.ResetStartsOver | src/features/auth/auth.service.ts:851-861 | A reset clears its own secret's columns, the lockout count too, and no key's lock. |
| Lockout.LockoutStore.AssertNotLocked | src/features/auth/lockout.service.ts:44-91 | Passes exactly when neither the factor's Redis key nor the secret's columns lock. |
| Lockout.LockoutStore.RecordFailedAttempt | src/features/auth/lockout.service.ts:102-120 | Counts the failure and applies the factor's schedule. |
| Lockout.LockoutStore.ApplyPasscodeLockout | src/features/auth/lockout.service.ts:138-191 | A lock is set only at 5, 10 or 15 failures, and the third is hard. |
| Lockout.LockoutStore.ApplyPinLockout | src/features/auth/lockout.service.ts:193-226 | From the third failure each one locks, and the second lockout is hard. |
| Lockout.LockoutStore.SubmitSecret | src/features/auth/auth.service.ts:459-521 | Locked, wrong or right, with the state each leaves. |
| Lockout.LockoutStore.ChangeLoginPasscode | src/features/auth/auth.service.ts:747-786 | The same checks and records; a success clears the columns and leaves the key. |
| Lockout.LockoutStore.ValidateBillPin | src/features/bills/bills.service.ts:489-517 | Checks the columns alone, and changes nothing whatever the comparison finds. |
| Lockout.LockoutStore.ResetSecret | src/features/auth/auth.service.ts:851-861 | Clears the secret's columns and leaves the Redis keys. |
| Otp.CodeBounds | src/features/auth/otp.service.ts:90-151 | In every run each issued code is accepted at most once and sees at most 2 * otpMaxAttempts - 1 wrong comparisons: its attempt counter, set with whole seconds, can end just before the code. |
| Otp.AttemptLimitInGoodTime | src/features/auth/otp.service.ts:130-147 | As a corollary, a code that gets no submission in the last second of its life sees at most otpMaxAttempts wrong comparisons. |
| Otp.AttemptBoundIsTight | src/features/auth/otp.service.ts:131-134 | A run in which a code with three attempts allowed sees five wrong comparisons. |
| Otp.SpentCodeStaysSpent | src/features/auth/otp.service.ts:130-150 | Once a code is accepted or used up, no submission changes anything until a new one is issued. |
| Otp.WrongIsCountedPlusForgotten | src/features/auth/otp.service.ts:105-147 | In every run, whatever the clock and redis.ttl say, a stored code has seen the wrong comparisons its counter shows plus those of counters that ended before it, and a used-up code otpMaxAttempts plus those. |
| Otp.ExceedsIffForgotten | src/features/auth/otp.service.ts:130-147 | A used-up code saw more than otpMaxAttempts wrong comparisons if and only if a wrong comparison found its counter ended; no other code sees more unless that happened. |
| Otp.VerifyAcceptsExactly | src/features/auth/otp.service.ts:116-150 | In every run a submission is accepted if and only if it equals the live code, which is then gone. |
| Otp.AcceptedIsLatest | src/features/auth/otp.service.ts:62-75 | In every run only the last code handed out is ever accepted, and only within its time to live. |
| Otp.SubmissionIsAnswered | src/features/auth/otp.service.ts:90-151 | Each answer to a submission and what it leaves, in terms of the live counter, the live code and the text: refused at the limit, expired, thrown, accepted, or counted with its time to live. |
| Otp.ComparableIff | src/features/auth/otp.service.ts:125-128 | A submission is comparable with a six-digit code if and only if it is at most six ASCII characters; any other makes the comparison throw. |
| Otp.NewCodeStartsOver | src/features/auth/otp.service.ts:62-75 | A new or resent code gets its own full life and no attempt counted. |
| Otp.ResendRefusedIff | src/features/auth/otp.service.ts:161-192 | After any run a resend is refused if and only if otpResendMax have succeeded in the window that the first of them opened and that window is not over. |
| Otp.ResendLimit | src/features/auth/otp.service.ts:161-192 | Any interval of one resend-window length holds at most 2 * otpResendMax - 1 successful resends. |
| Otp.ResendLimitIsTight | src/features/auth/otp.service.ts:184-190 | A run that reaches the bound. |
| Otp.OtpStore.GenerateOtp | src/features/auth/otp.service.ts:62-75 | Stores the code with its TTL and clears its attempts. |
| Otp.OtpStore.VerifyOtp | src/features/auth/otp.service.ts:90-151 | Each of the answers, with the byte lengths compared, the whole-second TTL and its fallback, and the keys it sets or deletes. |
| Otp.OtpStore.ResendOtp | src/features/auth/otp.service.ts:161-193 | Refuses at the limit, else replaces the code and counts within the window's own TTL. |
| Webhooks.RepeatsChangeNothing | src/features/webhooks/webhooks.service.ts:16-56 | Deliveries repeated under the id they first came with, any number of times, in any places and with any content, change nothing: the run ends in the state of the run without them. |
| Webhooks.RepeatIsCreditedIff | src/features/webhooks/webhooks.service.ts:99-110 | A Providus payload that comes again is credited again if and only if it carries no id and nothing is recorded under the new moment. |
| Webhooks.RepeatWithoutIdCreditsTwice | src/features/webhooks/webhooks.service.ts:99 | One transfer reported twice without an id, a millisecond apart, is credited twice. |
| Webhooks.LaterChargesChangeNothing | src/features/webhooks/webhooks.service.ts:256-286 | Once a reference is credited no further Paystack charge for it, under whatever ids, changes a deposit or adds a credit. |
| Webhooks.RecordedIffDelivered | src/features/webhooks/webhooks.service.ts:34-53 | A webhook row exists exactly for the deliveries that came. |
| Webhooks.OneCreditPerReference | src/features/deposits/deposits.service.ts:439-483 | In every run each reference has at most one funding credit, and its amount is positive. |
| Webhooks.BooksBalance | src/features/webhooks/webhooks.service.ts:147-175 | In every run a wallet's completed deposits are its funding credits plus the amounts of the Providus deliveries whose credit threw; without those the two are equal. |
| Webhooks.CreditedUnlessLost | src/features/webhooks/webhooks.service.ts:147-187 | A completed deposit has its own credit if and only if it is not a Providus deposit whose one processed delivery threw in creditWallet. |
| Webhooks.LostStaysLost | src/features/webhooks/webhooks.service.ts:110-110 | A credit lost that way is never made up: no continuation credits that reference. |
| Webhooks.ChargeCreditsIff | src/features/webhooks/webhooks.service.ts:243-294 | After any run an unrecorded charge credits exactly the stored deposit's wallet, reference and amount and completes that row if and only if the deposit is pending, of a positive amount and without a credit, and the charge carries an amount and meets no fault; otherwise deposits and credits stay. |
| Webhooks.ChargeMarkTells | src/features/webhooks/webhooks.service.ts:205-226 | Such a charge is marked done if and only if nothing threw: the lookup, the credit to be made, or the last update. |
| Webhooks.ProvidusCreditsIff | src/features/webhooks/webhooks.service.ts:112-188 | After any run an unrecorded Providus delivery adds its deposit if and only if the account is active and the amount whole, and credits it if and only if the amount is positive and the credit does not throw. |
| Webhooks.MomentsAreToldApart | src/features/webhooks/webhooks.service.ts:99-99 | Deliveries without an id share one only within a millisecond. |
| Webhooks.OthersCreditNothing | src/features/deposits/deposits.service.ts:375-394 | A new card deposit waits, a recorded delivery is ignored and other events are filed; none of them credits anything. |
| Webhooks.WebhookStore.InitiateCardDeposit | src/features/deposits/deposits.service.ts:375-394 | Adds a pending deposit under a new card reference. |
| Webhooks.WebhookStore.RecordWebhook | src/features/webhooks/webhooks.service.ts:16-56 | Records an unseen delivery as processing; reports a seen one and changes nothing. |
| Webhooks.WebhookStore.CreditWallet | src/features/deposits/deposits.service.ts:430-530 | Returns early on an existing entry, credits and completes the deposit together, or throws and changes nothing. |
| Webhooks.WebhookStore.HandleProvidusWebhook | src/features/webhooks/webhooks.service.ts:82-189 | One Providus delivery: its id or the clock in its place, the record, and what follows. |
| Webhooks.WebhookStore.ProcessProvidusCredit | src/features/webhooks/webhooks.service.ts:112-188 | The deposit row and its credit, with every early end and every throw. |
| Webhooks.WebhookStore.ProcessPaystackCharge | src/features/webhooks/webhooks.service.ts:243-294 | The stored deposit's amount is credited, once. |
| Webhooks.WebhookStore.HandlePaystackCharge | src/features/webhooks/webhooks.service.ts:195-241 | One charge.success delivery: its id or the clock in its place, the record, and what follows. |
| Webhooks.WebhookStore.HandlePaystackOther | src/features/webhooks/webhooks.service.ts:227-240 | Other events are acknowledged. |
| UniversalId.IdsAreNeverReissued | src/features/auth/auth.service.ts:1227-1250 | Over any registrations, passcode changes and revocations active IDs are distinct, retired IDs are distinct, no ID is both, and the IDs handed out never repeat. |
| UniversalId.RevocationsAreADayApart | src/features/universal-id/universal-id.service.ts:42-50 | One user's revocations are at least 24 hours apart. |
| UniversalId.RevokedIff | src/features/auth/auth.service.ts:1196-1253 | In a reachable state a revocation goes through if and only if the passcode matches, the announced moment has come and one of the five draws is free. |
| UniversalId.CompletedIff | src/features/auth/auth.service.ts:234-306 | After any run a registration is completed if and only if the user's one-time password was accepted, no ID was issued to the user before, the username is free and so is one of five draws; the row gets the first free one and the passcode, and nothing else changes. |
| UniversalId.RevocationReplaces | src/features/auth/auth.service.ts:1196-1253 | After any run a revocation is answered by the passcode set last, the day since the last revocation, and the draws, in this order; one that goes through retires the user's ID for the first free draw and touches no other row. |
| UniversalId.RowsTellStories | src/features/auth/auth.service.ts:234-306 | In every run a user's row tells what has happened to the user: the accepted one-time password, the last ID, the last passcode and the last revocation. |
| UniversalId.GenerateUniversalId | src/features/universal-id/universal-id.service.ts:17-32 | The loop ends within 5 tries with the first free draw, which is a valid ID, or fails exactly when all five are taken. |
| UniversalId.FirstFreeAt | src/features/universal-id/universal-id.service.ts:20-24 | The chosen ID is the first draw not taken. |
| UniversalId.ValidIffCandidate | src/features/universal-id/universal-id.service.ts:34-36 | The texts the pattern accepts are exactly those the generator can draw. |
| UniversalId.CandidateIsInjective | src/features/universal-id/universal-id.service.ts:9-15 | Different draws give different IDs. |
| UniversalId.PlaceholderIsNoCandidate | src/features/auth/auth.service.ts:143 | A pending user's placeholder is never an ID. |
| UniversalId.Directory.Complete | src/features/auth/auth.service.ts:234-306 | Issues an ID only to an OTP-verified registration with a free username. |
| UniversalId.Directory.Revoke | src/features/auth/auth.service.ts:1196-1253 | Retires the old ID and issues the new one together. |

## Left out

- HTTP routing, validation schemas, logging, metrics, receipts, audit rows, mail, SMS and push: they hold no state of their own.
- Cryptography (argon2, JWT, HMAC, hashing, randomness): comparisons are inputs, tokens and references are inputs that may collide.
- BullMQ: a queue is a set of pending jobs; stalled or re-run jobs, crashes between two steps and worker restarts are not modelled.
- Database failures other than an aborted transaction, and serialization retries: a balance read under the lock sees all committed entries.
- BillsService.BillStore.ExecutePurchase: debit, bill row and ledger entry are one step; amounts are taken as rejected up front when not positive, which the request schemas do.
- Any tie between `available_balance` and the ledger sum in runs that mix bills with transfers and deposits: nothing in the code keeps one. In the ledger model a bill is refunded once; the second refund that BillsRefund shows would only raise a balance.
- Bank settlement, retries and the bank worker: not part of this model; whether a reversal carries the original's wallet and amount is up to its caller, and the administrator row its reversals entry refers to is taken to exist.
- Net amounts of tier-1 bank transfers may be negative in the code; only amount = fee + net amount is stated.
- TransfersService.TransferStore.ExecuteInternalTransfer: the fraud check and the PIN's comparison are inputs here; FraudVelocity and Lockout model them.
- Two simultaneous limit checks or rotations: the code reads and then writes without a lock, so those calls are atomic here.
- FraudVelocity.HourlyLimitsHold: no bound holds while Redis fails, since a failure counts as zero; such runs are not part of the claim.
- The Redis blocklist of session ids, and parsing or signing of access tokens.
- The development bypass code of the one-time passwords; what redis.ttl reports is an input, taken to be less than a second off.
- Lockout: the account's own checks at login and unlock, and which secret a device presents; the comparisons are inputs.
- The string form of the wallet feed's cursor: it is taken as an already decoded time, since the code splits on a character ISO dates contain.
- WalletFeed: ids are naturals ordered as the UUID strings they stand for; time zones, daylight saving and sub-millisecond times are not modelled.
- Webhooks.WebhookStore.HandleProvidusWebhook: signature check and JSON parsing come before it; the deposits table is not in the Prisma schema, so no uniqueness of its references is assumed; other kinds of transactions are taken not to use deposit references.
- Typed Universal IDs are trimmed of ASCII blanks and upper-cased in ASCII only, and only where the velocity counter needs it; the word list itself is any words of four to six capitals.
- UniversalId.GenerateUniversalId: two simultaneous generations that check before either has written are not modelled; each call is atomic.
- Identity providers, the development fallback of KYC and the address-verification callbacks: the verdict is an input.
- QR payments, payment requests, disputes, notification preferences and reports: not part of this model.
