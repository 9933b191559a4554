# Tchuno: money, requests, tracking and sessions

Tchuno is a marketplace on which customers post service requests, providers answer with proposals, and a
selected proposal becomes a job with a deposit to pay. This project models the four state machines of its
API that decide who gets what, and proves what they keep.

* **Money** (`Ledger`, `Policy`, `Payments`, `Safety`, `Growth`, `Agreement`, `ReleaseDelay`, `Runs`,
  `Guarantees`, `Lifecycle`, `Charges`, `Staleness`, `Scenarios`, `PaymentRules`, `JobRules`, `ContactRules`,
  `MoneyRules`, `PaymentsService`). Charges, releases, refunds and payouts post to an append-only ledger, and a
  balance is always a sum over it. Every operation is cut where the service awaits: `Begin` is the part that reads and checks, `Commit` the database transaction
  that writes, run on whatever the tables hold by then and with any gateway answer. A run interleaves any
  number of such pieces.
* **Requests** (`Requests`, `LazyExpiry`, `RequestSafety`, `RequestRules`, `ServiceRequestsService`). Requests,
  proposals, invitations and jobs, with expiry enforced both by a sweep and on access, and with selections racing.
* **Tracking** (`Tracking`, `TrackingService`). A bounded queue, one timer, one batch in flight, and delta
  maps that are upserted into the aggregate tables.
* **Sessions** (`Sessions`, `SessionRules`, `AuthService`). Refresh-token rotation, as interleaved steps and as
  atomic calls.

Each part has the same shape: functions say what one step does to the tables, lemmas prove what every run of
steps keeps, and a class does the work in the service's own step-by-step form, each method proved to leave
exactly the tables that the functions say. The modules named `...Rules` fix those functions from outside, call by
call: exactly when a call is accepted, what it leaves in every row and what it answers otherwise, in terms of
statuses, texts, numbers and rows and without the functions that compute them.

The checks that the services make before a transaction can be stale when it runs. What holds however stale
they are, what holds only while some kind of call is not interleaved, and exactly which stale writes break it,
are separate results. `Guarantees` takes the set `split` of the kinds of call that may be interleaved. For each
such kind `Staleness` gives the exact condition, on the tables before the write, under which its property
survives, and `Scenarios` a run from empty tables, for every deal, on which it does not.

## Model

| member | source | states |
|---|---|---|
| Guarantees.LedgerSafety | apps/api/src/payments/payments.service.ts:2676-2862 | In any interleaving with any gateway answers, the five balances of every intent sum to zero, the four that are not the customer's are never negative, and refunds plus payouts never exceed charges |
| Guarantees.PostedAtMostOnce | apps/api/src/payments/payments.service.ts:1590-1741 | In any interleaving no payout row and no refund row reaches the ledger twice, and an entry that does is of an existing row, with that row's intent and amount |
| Guarantees.NoUnpaidExecution | apps/api/src/jobs/jobs.service.ts:125-144 | In any interleaving a job that is accepted, in progress or completed has a customer charge on the ledger and its contact unlocked, whatever became of its intent's status |
| Guarantees.LedgerOnlyGrows | apps/api/src/payments/ledger.service.ts:13-24 | Along every run the ledger at an earlier point is a prefix of the ledger later |
| Guarantees.NoMoneyBeforeTheDelay | apps/api/src/payments/payments.service.ts:1745-1835 | While job updates are not interleaved, an intent with an available or paid-out entry belongs to a job completed at least the release delay ago |
| Guarantees.StatusTablesAgree | apps/api/src/payments/payments.service.ts:1897-1920 | Succeeded refund requests add up to the refunds on the ledger while refund closings are not interleaved; they then stay within the amount of an intent charged once whatever else is interleaved, and of any intent while settlements are not; paid payouts add up to the paid-out balance while approvals are not |
| Guarantees.ConfirmedMeansCharged | apps/api/src/payments/payments.service.ts:2877-2893 | While reconciliations are not interleaved, a charge transaction has its requested amount confirmed if its charge is on the ledger and nothing confirmed otherwise |
| Guarantees.RoundingStaysWithinHalfAUnit | apps/api/src/payments/payments.service.ts:2078-2084 | In any interleaving, the platform's reserve differs from its exact proportional share of what was charged and not refunded by at most half a unit for each refund |
| Guarantees.UntouchedCharge | apps/api/src/payments/payments.service.ts:2676-2739 | While nothing was refunded or paid out, the reserve holds exactly the recorded fee of each charge, and the held and available balances its net |
| Guarantees.FirstRefundSettles | apps/api/src/payments/payments.service.ts:2764-2795 | The first refund on a charged intent with nothing paid out passes both balance checks whatever its size: it commits exactly when its key and gateway reference are free |
| Guarantees.RefundSettlesIff | apps/api/src/payments/payments.service.ts:2764-2795 | Any refund settles exactly when the reserve covers the platform's part and does not exceed what is left after the provider's part of what was charged and neither refunded nor paid out |
| Guarantees.FullRefundReturnsEverything | apps/api/src/payments/payments.service.ts:2078-2084 | A first refund of the whole amount takes exactly the recorded fee from the platform and leaves all five balances at zero |
| Guarantees.ReservationIff | apps/api/src/payments/payments.service.ts:1505-1546 | While payout creations and approvals are not interleaved, waiting payouts stay within the available balance of every intent at every point of a run exactly when each refund the run books leaves them their money, a guard read off the tables before the refund |
| Guarantees.StepReservesIff | apps/api/src/payments/payments.service.ts:2764-2795 | The same for one step of such a run: it keeps the reservation exactly when the refund it settles, if it settles one that goes through, spares the waiting payouts |
| Guarantees.ApprovedPayoutsSettle | apps/api/src/payments/payments.service.ts:1696-1709 | In such a run, with everything else interleaved, settling an approved payout never fails its balance check: it commits exactly when its own key is known or its gateway reference is free |
| Lifecycle.FinishedDealPaysTheProvider | apps/api/src/payments/payments.service.ts:1575-1835 | For every price, percentage, fee rate, gateway and starting time that leave the provider a unit or more of the deposit, the run in which a deal is selected, paid, accepted, started, completed, released after the delay, asked for, approved and settled ends with the whole net at the provider, the whole fee in reserve and nothing in between |
| Lifecycle.WithdrawnDealReturnsTheDeposit | apps/api/src/payments/payments.service.ts:2025-2203 | For every price, percentage, fee rate and gateway, in the run in which a customer pays and asks for a refund without an amount before the job starts the whole deposit comes back and all five balances end at zero |
| Lifecycle.ReleasableIff | apps/api/src/payments/payments.service.ts:1786-1800 | After completion there is something to release exactly if rounding left the provider at least one unit of the deposit |
| Charges.ChargedExactlyOnce | apps/api/src/payments/payments.service.ts:2676-2739 | In any run, with any order and repetition of statuses, a transaction has one charge, one fee and one held entry of its intent's amounts if success was ever applied to it, and none of them otherwise |
| Charges.CommitCharges | apps/api/src/payments/payments.service.ts:2864-2949 | A transaction body books a charge for exactly the transactions it applies success to, and no body ever removes one |
| Charges.RepeatsChangeNothing | apps/api/src/payments/payments.service.ts:794-921 | A list of webhook deliveries leaves every table as the list without the repeated deliveries of a gateway and event id does |
| Charges.RecordsItself | apps/api/src/payments/payments.service.ts:820-849 | A delivery that passes validation is recorded under its gateway and event id, and one that is recorded already changes nothing, also if the recorded one was never processed |
| Safety.CommitKeepsBase | apps/api/src/payments/payments.service.ts:1640-1741 | Every transaction body keeps the ledger invariant on any tables that satisfy it, however stale the checks that led to it and whatever the gateway answers |
| Safety.BeginIsSound | apps/api/src/payments/payments.service.ts:1575-1638 | The part before the transaction keeps the invariant too and only hands over arguments that stay valid while others commit |
| Safety.RefundShape | apps/api/src/payments/payments.service.ts:2741-2862 | A committed refund had a free key, took from the held balance before the available one, never more than either holds, and booked nothing unless the gateway said success |
| Safety.PayoutShape | apps/api/src/payments/payments.service.ts:1655-1740 | A committed payout had a free key and reference, and booked its amount only on success and within the available balance |
| Growth.CommitGrows | apps/api/src/payments/payments.service.ts:2864-2949 | No transaction body removes a row or an entry, changes an amount, a party or a key, locks a contact again or forgets a completion |
| Growth.SoundStays | apps/api/src/payments/payments.service.ts:927-950 | What a worker carries from its outer phase stays well-formed while other workers commit |
| Agreement.BeginIsFresh | apps/api/src/payments/payments.service.ts:2060-2076 | At the moment an outer phase ends, everything it checked holds |
| Agreement.RefundsAgreeKept | apps/api/src/payments/payments.service.ts:2145-2163 | Every transaction body keeps refund requests in agreement with the ledger, except the closing of a refund on a stale check |
| Agreement.RefundsCappedKept | apps/api/src/payments/payments.service.ts:2071-2076 | Succeeded refunds stay within the intent's amount, unless a refund is closed or settled on a stale check |
| Agreement.PayoutsAgreeKept | apps/api/src/payments/payments.service.ts:1676-1739 | Every transaction body keeps paid payouts in agreement with the ledger, except an approval on a stale check |
| Agreement.ConfirmedAgreeKept | apps/api/src/payments/payments.service.ts:2877-2893 | Every transaction body keeps confirmed amounts in agreement with the booked charges, except an answer applied to a stale copy |
| Agreement.AccountDelta | apps/api/src/payments/payments.service.ts:1711-1739 | Only a settled refund adds to what an intent has refunded and only a settled payout to what it has paid out, each by the amount of its row, and only those lower an available balance |
| ReleaseDelay.NoEarlyMoneyKept | apps/api/src/payments/payments.service.ts:1756-1766 | Only a job write on a stale check, or a release whose window was not checked, can put out money before the delay |
| ReleaseDelay.CompletedStays | apps/api/src/jobs/jobs.service.ts:432-463 | A completed job stays completed at its completion time under everything but a job write that took it for something else |
| ReleaseDelay.ReservedKept | apps/api/src/payments/payments.service.ts:1505-1546 | Every transaction body keeps waiting payouts within the available balance, if payouts are created and approved on fresh checks and a refund that goes through spares them |
| ReleaseDelay.RefundReservesIff | apps/api/src/payments/payments.service.ts:2794-2795 | A refund's transaction keeps waiting payouts within the available balance exactly when it does not go through, or what it takes beyond the held balance leaves them their money |
| ReleaseDelay.ApprovedPayoutIsCovered | apps/api/src/payments/payments.service.ts:1696-1709 | While waiting payouts are within the available balance, the settlement of an approved one cannot fail for lack of money |
| Runs.RunIsSafe | apps/api/src/payments/payments.service.ts:1655-1741 | All invariants hold after every run of entering, finishing, whole and dying workers, each invariant under the kinds of call that must not be interleaved for it |
| Runs.Perform | apps/api/src/payments/payments.service.ts:311-421 | A call with nothing interleaved keeps the ledger invariant and only lets tables grow |
| Staleness.StaleClose | apps/api/src/payments/payments.service.ts:650-676 | Closing a refund keeps requests and ledger in agreement exactly when the refund had not succeeded meanwhile, or was of nothing |
| Staleness.StaleApproval | apps/api/src/payments/payments.service.ts:1549-1573 | Approving a payout keeps payouts and ledger in agreement exactly when the payout was not paid meanwhile |
| Staleness.StaleAnswer | apps/api/src/payments/payments.service.ts:927-950 | Applying an answer to a copy of a transaction keeps confirmed amounts in agreement exactly when, on a charge, the answer is success or the copy still has the current confirmed amount |
| Staleness.StaleJobWrite | apps/api/src/jobs/jobs.service.ts:263-340 | A job write keeps the release rule exactly when none of the job's money was released, unless it writes a completion that is old enough or keeps the date of an earlier one |
| Staleness.StaleSettlement | apps/api/src/payments/payments.service.ts:2071-2110 | Settling a refund keeps succeeded refunds within the amount exactly when the refund does not pass the guards of its transaction or its amount still remains |
| Staleness.StaleCreation | apps/api/src/payments/payments.service.ts:1505-1546 | Creating a payout keeps waiting payouts within the available balance exactly when its amount is still available and not reserved |
| Staleness.StaleApprovalReserves | apps/api/src/payments/payments.service.ts:1560-1572 | Approving a payout keeps waiting payouts within the available balance exactly when it was waiting, or could be created once more |
| Scenarios.AcceptedRefundCannotSettle | apps/api/src/payments/payments.service.ts:2764-2778 | In an atomic run on a deposit of 2 with a fee of 1, a second refund of 1 is accepted and passes every outer check, and its transaction always fails because rounding took the whole reserve for the first |
| Scenarios.LateCancellation | apps/api/src/payments/payments.service.ts:650-676 | For every deal there is a run in which a cancellation checked while the refund was pending is written after it succeeded, and the whole deposit is booked as refunded with its request canceled |
| Scenarios.LateApproval | apps/api/src/payments/payments.service.ts:1560-1572 | For every deal whose deposit leaves the provider a unit or more there is a run in which a second approval is written after the payout was paid: it is approved again, counts as not paid and waits for money that is gone |
| Scenarios.LateCreation | apps/api/src/payments/payments.service.ts:1505-1546 | For every deal whose deposit leaves the provider a unit or more there is a run in which two creations check the same balance and the waiting payouts come to twice what is available |
| Scenarios.LateSettlement | apps/api/src/payments/payments.service.ts:2071-2110 | For every deal there is a run in which an intent charged twice has two refunds of its whole amount opened and checked before either settles, and twice the amount is refunded |
| Scenarios.LateAnswer | apps/api/src/payments/payments.service.ts:927-950 | For every deal there is a run in which a failure answered about a copy read before the charge succeeded erases the confirmed amount of the booked charge |
| Scenarios.LateJobCancelation | apps/api/src/jobs/jobs.service.ts:263-340 | For every deal whose deposit leaves the provider a unit or more there is a run in which a cancelation decided in progress is written after completion and release, and released money belongs to a canceled job |
| Scenarios.LateCompletion | apps/api/src/jobs/jobs.service.ts:302-340 | For every deal whose deposit leaves the provider a unit or more and every gap within the delay there is a run in which two completions are decided in progress, the first is written and the money released, and the second then dates the completion later, so that the money is out before the delay |
| Scenarios.RefundNoticeBooksCharge | apps/api/src/payments/payments.service.ts:2929-2937 | For every deal, after a full refund a success notice for the refund's transaction books a second charge of the intent, because the type of the transaction is not looked at |
| Scenarios.RefundOverdrawsPayout | apps/api/src/payments/payments.service.ts:2794-2795 | For every deal whose deposit leaves the provider a unit or more there is an atomic run in which the whole deposit is refunded while an approved payout waits; the payout then passes every check but that of its money |
| PaymentRules.PaidIsNotChargedAgain | apps/api/src/payments/payments.service.ts:333-335 | Paying an intent that is PAID_PARTIAL or SUCCEEDED leaves every table as it is, without a fault, for its customer with any key, answer and time |
| PaymentRules.ChargeIff | apps/api/src/payments/payments.service.ts:326-363 | A payment reaches the charge exactly if its caller is the customer, the intent is AWAITING_PAYMENT, PENDING_CONFIRMATION or FAILED, and no transaction of the intent has the key the client sent |
| PaymentRules.PaymentNotCharged | apps/api/src/payments/payments.service.ts:319-363 | What every other payment answers, with all tables as they were |
| PaymentRules.PaymentIsCharged | apps/api/src/payments/payments.service.ts:365-420 | A charge that is reached is recorded and books what the answer says, or its key or gateway reference is taken and nothing changes |
| PaymentRules.PaymentStepsChargeOnce | apps/api/src/payments/payments.service.ts:333-335 | In any run, at every point and with any work pending, a payment of a paid intent, whole or split, moves nothing but the clock |
| PaymentRules.DeliveryMeans | apps/api/src/payments/payments.service.ts:2649-2665 | A new, valid delivery for a transaction books that transaction's charge exactly if its text is SUCCEEDED or SUCCESS and it was not booked before; SUCCEEDED and SUCCESS, FAILED and FAILURE, REVERSED, and every other text each leave their own pair of transaction and intent status, and no other row changes |
| PaymentRules.FoundIsTaken | apps/api/src/payments/payments.service.ts:851-905 | A delivery's id, or else its reference at the gateway, names at most one transaction, and that is the one it is applied to |
| PaymentRules.DeliveryWithoutEffect | apps/api/src/payments/payments.service.ts:800-871 | Every other delivery is refused for a missing id or signature, already recorded, or only recorded |
| PaymentRules.ReconcileMeans | apps/api/src/payments/payments.service.ts:923-951 | A reconciliation applies the gateway's answer to the one transaction it is asked about and books a charge exactly on success |
| JobRules.MoveIff | apps/api/src/jobs/jobs.service.ts:432-463 | A job moves exactly if the provider takes it from requested to accepted, accepted to in progress or in progress to completed, or a party cancels it before its end, with a paid intent of a selected job for all but cancelation and a reason exactly for cancelation; each move sets its own stamp once, and only cancelation touches intents, the unpaid ones of the job |
| JobRules.JobsKeepTheirTimeline | apps/api/src/jobs/jobs.service.ts:302-340 | While job updates are not interleaved, every job of every run has exactly the stamps its status implies, in nondecreasing order: nothing is completed that was not accepted and started before |
| ContactRules.ContactIffCharged | apps/api/src/payments/payments.service.ts:2929-2945 | In any interleaving with any gateway answers, the contact of a job is unlocked exactly if a customer charge of the job is on the ledger |
| MoneyRules.CreateIntentRule | apps/api/src/payments/payments.service.ts:207-309 | An intent is created exactly for the client of a priced job from a selection without a reusable intent, over the agreed price or else the budget, with the rounded fee |
| MoneyRules.OpenJobRule | apps/api/src/service-requests/service-requests.service.ts:1280-1336 | A selection's job and its deposit intent appear together, once for each request, with the deposit at the rounded percentage of the price |
| MoneyRules.RequestRefundRule | apps/api/src/payments/payments.service.ts:541-628 | A refund request on the latest paid intent is accepted exactly from a party or an admin while no other one is pending, approved or processing and for no more than is left, by default half of it, rounded up, while the job is under way and all of it otherwise |
| MoneyRules.NothingToRefund | apps/api/src/payments/payments.service.ts:552-572 | Without the job or a paid intent no request is accepted, and which fault each caller gets |
| MoneyRules.CancelRefundRule | apps/api/src/payments/payments.service.ts:630-701 | A refund is canceled exactly while pending, by an admin or by its requester if that is a party of the job, and nothing else changes |
| MoneyRules.RejectRefundRule | apps/api/src/payments/payments.service.ts:1308-1377 | A refund is rejected exactly while pending, and nothing else changes |
| MoneyRules.OpenRefundRule | apps/api/src/payments/payments.service.ts:1407-1482 | An admin's refund is inserted exactly for a paid intent with something left, within what is left and by default all of it |
| MoneyRules.ProcessRefundRule | apps/api/src/payments/payments.service.ts:2044-2203 | A refund is settled exactly if it is pending on a paid intent, within what is left, under a free key and reference, and covered by the balances if the gateway paid; its statuses follow the answer and each other case leaves all tables |
| MoneyRules.CreatePayoutRule | apps/api/src/payments/payments.service.ts:1484-1547 | A payout is accepted exactly to the intent's provider and for any amount that is available and not awaited by pending, approved or processing payouts; it is pending then, for the named job or else the intent's, and nothing else changes |
| MoneyRules.ApprovePayoutRule | apps/api/src/payments/payments.service.ts:1549-1573 | Exactly a pending payout is approved |
| MoneyRules.ProcessPayoutRule | apps/api/src/payments/payments.service.ts:1575-1743 | An approved payout is settled once, under a free reference and, if the gateway paid, with its money available; its statuses follow the answer |
| MoneyRules.ReleaseRule | apps/api/src/payments/payments.service.ts:1745-1835 | All that is held on the latest paid intent of a completed job, and only then and after the delay, becomes available |
| Ledger.ComputeBucketNet | apps/api/src/payments/ledger.service.ts:26-52 | Grouping by direction and subtracting debits from credits gives the sum of the signed amounts, entry by entry |
| Ledger.AccountAppend | apps/api/src/payments/ledger.service.ts:13-52 | Appending entries adds their account to the account there was |
| Ledger.ChargeAccount | apps/api/src/payments/payments.service.ts:2698-2738 | A charge's entries take the gross from the customer and give the fee to the platform and the net to the provider's held balance |
| Ledger.RefundAccount | apps/api/src/payments/payments.service.ts:2797-2861 | A refund's entries, also when empty ones are left out, take its three parts from the three balances and credit the customer |
| Ledger.PayoutAccount | apps/api/src/payments/payments.service.ts:1711-1739 | A payout's entries move its amount from available to paid out and touch nothing else |
| Ledger.ReleaseAccount | apps/api/src/payments/payments.service.ts:1801-1826 | A release's entries move its amount from held to available and touch nothing else |
| Policy.RoundDiv | apps/api/src/payments/payments.service.ts:2078-2083 | Rounding is to the nearest integer, halves upwards |
| Policy.ComputeSplit | apps/api/src/payments/payment-policy.service.ts:8-25 | Fee and net add up to the gross, and the fee is the rate's share of it rounded to the nearest |
| Policy.ComputeDepositSplit | apps/api/src/service-requests/service-requests.service.ts:1606-1634 | A deposit lies between one unit and the agreed price, within half a unit of 20 to 30 percent of it, and splits without loss |
| Policy.RefundShare | apps/api/src/payments/payments.service.ts:2078-2084 | The platform's part of a refund lies within the refund and within half a unit of its proportional share |
| Policy.FullRefundShare | apps/api/src/payments/payments.service.ts:2078-2084 | The platform's part of a full refund is exactly the recorded fee |
| Policy.PartialRefundShare | apps/api/src/payments/payments.service.ts:2078-2084 | A refund within the amount takes no more than the fee from the platform and no more than the net from the provider |
| Payments.LastIntent | apps/api/src/payments/payments.service.ts:1885-1895 | The latest intent of a job in the given statuses, or none exactly if the job has none |
| Payments.SuggestedRefund | apps/api/src/payments/payments.service.ts:2025-2042 | An amount is suggested exactly if something is left to refund and the job is not completed; it lies between one unit and what is left, and is half of it, rounded up, once the job has started |
| PaymentsService.BecomesPerforms | apps/api/src/payments/payments.service.ts:207-421 | What a method of the classes leaves behind is the atomic step of the runs, so every result about runs is one about the methods |
| PaymentsService.Store.AppendEntries | apps/api/src/payments/ledger.service.ts:13-24 | Entries go to the end of the ledger, everything else stays |
| PaymentsService.PaymentsService.CreateIntent | apps/api/src/payments/payments.service.ts:207-309 | Leaves the tables and the fault of the specified call: one awaiting intent for the client's job unless a reusable one exists |
| PaymentsService.PaymentsService.PayIntent | apps/api/src/payments/payments.service.ts:311-421 | Leaves the tables and the fault of the specified call: by PaidIsNotChargedAgain a paid intent is not charged again, by ChargeIff exactly the payments it lists reach the charge, and a taken key or reference rolls back |
| PaymentsService.PaymentsService.HandleWebhook | apps/api/src/payments/payments.service.ts:794-921 | Leaves the tables and the fault of the specified call, with the event recorded before the transaction is looked up; DeliveryMeans gives what each status text books |
| PaymentsService.PaymentsService.ReconcileTransaction | apps/api/src/payments/payments.service.ts:923-951 | Applies the answer to the transaction, whose status afterwards is the answer's |
| PaymentsService.PaymentsService.ReconcilePending | apps/api/src/payments/payments.service.ts:953-1044 | Every scanned transaction is counted exactly once, under the status its gateway answered or as an error, and the tables are those of one reconciliation after another |
| PaymentsService.PaymentsService.CreateJobRefundRequest | apps/api/src/payments/payments.service.ts:541-628 | Leaves the tables and the fault of the specified call: one pending request within the remaining amount, unless one is active |
| PaymentsService.PaymentsService.CancelRefundRequest | apps/api/src/payments/payments.service.ts:630-701 | Leaves the tables and the fault of the specified call, open to an admin or to the requester among the job's parties |
| PaymentsService.PaymentsService.AdminRejectRefund | apps/api/src/payments/payments.service.ts:1308-1377 | Leaves the tables and the fault of the specified call: a pending request fails, any other is a conflict |
| PaymentsService.PaymentsService.AdminCreateRefund | apps/api/src/payments/payments.service.ts:1407-1482 | Inserts a request within the remaining amount and processes it; if processing is refused the request stays pending |
| PaymentsService.PaymentsService.GetRemainingRefundableAmount | apps/api/src/payments/payments.service.ts:1897-1920 | The amount less the succeeded refunds, never below zero |
| PaymentsService.PaymentsService.ProcessRefundRequest | apps/api/src/payments/payments.service.ts:2044-2203 | Leaves the tables and the fault of the specified call; a failure inside the transaction undoes the approval and the transaction row |
| PaymentsService.PaymentsService.SettleRefund | apps/api/src/payments/payments.service.ts:2086-2202 | The transaction body ends as specified or leaves every table as it found it |
| PaymentsService.PaymentsService.AppendRefundLedgerEntries | apps/api/src/payments/payments.service.ts:2741-2862 | Posts the refund's entries if both balance checks pass, otherwise nothing |
| PaymentsService.PaymentsService.AdminCreatePayout | apps/api/src/payments/payments.service.ts:1484-1547 | Leaves the tables and the fault of the specified call: a payout within what is available and not reserved |
| PaymentsService.PaymentsService.AdminApprovePayout | apps/api/src/payments/payments.service.ts:1549-1573 | Leaves the tables and the fault of the specified call: only a pending payout is approved |
| PaymentsService.PaymentsService.AdminProcessPayout | apps/api/src/payments/payments.service.ts:1575-1743 | Leaves the tables and the fault of the specified call; a payout whose key is known is left alone |
| PaymentsService.PaymentsService.SettlePayout | apps/api/src/payments/payments.service.ts:1640-1741 | The transaction body ends as specified or leaves every table as it found it |
| PaymentsService.PaymentsService.AdminReleaseProviderFunds | apps/api/src/payments/payments.service.ts:1745-1835 | Leaves the tables and the fault of the specified call: all that is held becomes available, after completion and delay |
| PaymentsService.PaymentsService.EnsureChargeLedgerEntries | apps/api/src/payments/payments.service.ts:2676-2739 | Posts the charge's three entries if the transaction has none, and nothing otherwise |
| PaymentsService.PaymentsService.ApplyGatewayStatus | apps/api/src/payments/payments.service.ts:2864-2949 | Leaves the tables that the specified application of a status to a possibly stale row leaves |
| PaymentsService.JobsService.UpdateStatus | apps/api/src/jobs/jobs.service.ts:201-387 | Leaves the tables and the fault of the specified call: one of the moves of MoveIff by a party, paid for if it is execution, stamped once, canceling unpaid intents with the job |
| RequestSafety.RequestsStayConsistent | apps/api/src/service-requests/service-requests.service.ts:1115-1395 | In any interleaving of calls and racing selections, a closed request has one selected proposal, all others rejected and one matching job, every other request has only submitted proposals and no job, invitations match, and no request has two jobs |
| RequestSafety.DoKeeps | apps/api/src/service-requests/service-requests.service.ts:184-1395 | Every atomic call keeps requests, proposals, invitations and jobs consistent |
| RequestSafety.JobsAreExact | apps/api/src/service-requests/service-requests.service.ts:1150-1349 | In atomic runs every job has the price of its selected proposal and was created before its request's expiry |
| RequestSafety.SelectionHappensOnce | apps/api/src/service-requests/service-requests.service.ts:1150-1173 | Once a request is selected, selecting the same proposal changes nothing and answers the same job and proposal, and selecting another is refused |
| RequestSafety.ClosedStays | apps/api/src/service-requests/service-requests.service.ts:1498-1515 | No call reopens, expires or reselects a closed request or takes away its job |
| RequestSafety.NothingToRepair | apps/api/src/service-requests/service-requests.service.ts:1517-1549 | In every consistent state the two repair sweeps over invitations have no row to change |
| RequestSafety.ExpiredInvitationStays | apps/api/src/service-requests/service-requests.service.ts:1419-1453 | No call takes an expired invitation out of that status |
| RequestSafety.InvitationKeeps | apps/api/src/service-requests/service-requests.service.ts:661-696 | Writing an invitation keeps consistency exactly when the request is open and the provider has neither proposal nor invitation there |
| RequestSafety.ProposalKeeps | apps/api/src/service-requests/service-requests.service.ts:1008-1037 | Writing a proposal keeps consistency exactly when its request was not closed meanwhile |
| RequestSafety.ClosingKeeps | apps/api/src/service-requests/service-requests.service.ts:1228-1349 | The selection's transaction keeps consistency however late it runs |
| RequestSafety.LateProposal | apps/api/src/service-requests/service-requests.service.ts:996-1035 | For every owner and rival bids a run reaches a closed request on which the selected provider's proposal, checked before and written after the selection, leaves no selected proposal |
| RequestSafety.LateSelection | apps/api/src/service-requests/service-requests.service.ts:1228-1259 | A late selection leaves jobs exact exactly when a job existed already, or the price is unchanged and the request has not run out |
| RequestSafety.LateWin | apps/api/src/service-requests/service-requests.service.ts:1228-1259 | For every owner and rival bids there is a run in which a selection checked in time creates its job at the request's expiry |
| RequestSafety.AnswerIsStoredIff | apps/api/src/service-requests/service-requests.service.ts:1241-1257 | A selection's transaction answers the one job of the request, and the proposal it names as selected is the stored one exactly when no other proposal had been selected before |
| RequestSafety.LoserIsMisinformed | apps/api/src/service-requests/service-requests.service.ts:1241-1257 | For every owner and rival bids there is a race whose loser is told that its own proposal is selected, together with the winner's job |
| RequestRules.CreateRule | apps/api/src/service-requests/service-requests.service.ts:184-213 | A request appears exactly for an active category, open, unselected and expiring after its lifetime |
| RequestRules.RecreateRule | apps/api/src/service-requests/service-requests.service.ts:215-292 | Exactly the owner's expired requests, and open ones past their expiry, are recreated, as a new open request beside the old one |
| RequestRules.UpdateRule | apps/api/src/service-requests/service-requests.service.ts:294-374 | Exactly the owner's open requests before their expiry are adjusted, and the expiry moves by exactly the extension |
| RequestRules.ViewRule | apps/api/src/service-requests/service-requests.service.ts:1498-1507 | The owner reads EXPIRED for an open request past its expiry and the stored status otherwise, and the request and its waiting invitations expire with it |
| RequestRules.SweepRule | apps/api/src/service-requests/service-requests.service.ts:1397-1417 | The sweep, alone or in a provider's list of invitations, expires exactly the open requests past their expiry with their waiting invitations |
| RequestRules.InviteRule | apps/api/src/service-requests/service-requests.service.ts:593-720 | An invitation is sent exactly by the owner, while the request is open, to an available provider other than the owner with neither proposal nor invitation there |
| RequestRules.ListRule | apps/api/src/service-requests/service-requests.service.ts:561-591 | The owner's list of invitations changes nothing but what is past its expiry |
| RequestRules.DeclineRule | apps/api/src/service-requests/service-requests.service.ts:858-948 | Exactly a waiting invitation of a request still open becomes declined; what every other status and a request past its expiry give |
| RequestRules.SubmitRule | apps/api/src/service-requests/service-requests.service.ts:1008-1037 | A bid is accepted exactly from an available provider other than the owner, at a positive price, while the request is open; then exactly one proposal is the provider's, submitted and at that price, every other one is as it was, and there is one more exactly if the provider had none |
| RequestRules.SelectRule | apps/api/src/service-requests/service-requests.service.ts:1150-1349 | A selection is made exactly by the owner, while the request is open, of one of its proposals with a positive price and an available provider; it closes the request on it, rejects the rivals, expires waiting invitations and creates the job with that client, provider, price and rounded deposit |
| RequestRules.PricesAreLastBids | apps/api/src/service-requests/service-requests.service.ts:1019-1035 | In every run with racing selections each proposal carries the price of the last bid its provider had accepted for the request |
| RequestRules.JobPriceIsTheLastBid | apps/api/src/service-requests/service-requests.service.ts:1280-1300 | In atomic runs a job's price is the last one its provider had accepted for the request |
| RequestRules.BiddingEnds | apps/api/src/service-requests/service-requests.service.ts:1000-1006 | Once a request has its job no bid for it is accepted any more, so that last bid came before the selection |
| RequestRules.JobPriceWasBid | apps/api/src/service-requests/service-requests.service.ts:1280-1300 | Even with racing selections no job is created at a price that was not, at some point of the run, the last accepted bid of its provider for its request |
| LazyExpiry.LazyIsEager | apps/api/src/service-requests/service-requests.service.ts:1498-1515 | For every call, sweeping first or not gives the same answer and, after a final sweep, the same requests, proposals, invitations and jobs |
| LazyExpiry.LazyRefinesEager | apps/api/src/service-requests/service-requests.service.ts:1397-1417 | A run that never sweeps and one that sweeps before every call give the same answers and, swept, the same tables |
| LazyExpiry.SweepAgain | apps/api/src/service-requests/service-requests.service.ts:1455-1496 | A later sweep subsumes an earlier one |
| LazyExpiry.RefreshIsPartOfSweep | apps/api/src/service-requests/service-requests.service.ts:1498-1507 | Refreshing one request does to it what the sweep does, and a sweep afterwards ends where a sweep alone does |
| LazyExpiry.DeclineAgrees | apps/api/src/service-requests/service-requests.service.ts:858-948 | Declining answers alike and ends alike although the swept run takes another branch |
| ServiceRequestsService.ServiceRequestsService.ExpireRequestsByIds | apps/api/src/service-requests/service-requests.service.ts:1455-1496 | Exactly the open ones of the given requests expire, and every waiting invitation of any of them |
| ServiceRequestsService.ServiceRequestsService.ExpireStaleOpenRequests | apps/api/src/service-requests/service-requests.service.ts:1397-1417 | Collecting ids and expiring them is the sweep, and the count is the number of stale requests |
| ServiceRequestsService.ServiceRequestsService.RefreshRequestStatusIfExpired | apps/api/src/service-requests/service-requests.service.ts:1498-1507 | Expires the request at hand if it is past its expiry and answers the status it has then |
| ServiceRequestsService.ServiceRequestsService.Create | apps/api/src/service-requests/service-requests.service.ts:184-213 | Answers and leaves the rows of the specified call |
| ServiceRequestsService.ServiceRequestsService.Recreate | apps/api/src/service-requests/service-requests.service.ts:215-292 | Answers and leaves the rows of the specified call: only an expired request without selection and job is recreated |
| ServiceRequestsService.ServiceRequestsService.Update | apps/api/src/service-requests/service-requests.service.ts:294-374 | Answers and leaves the rows of the specified call: only an open request without selection and job is extended |
| ServiceRequestsService.ServiceRequestsService.CreateInvitation | apps/api/src/service-requests/service-requests.service.ts:593-720 | Answers and leaves the rows of the specified call, with the proposal and invitation read before the refresh |
| ServiceRequestsService.ServiceRequestsService.ListRequestInvitations | apps/api/src/service-requests/service-requests.service.ts:561-591 | Answers and leaves the rows of the specified call, with the repair on a request that is not open |
| ServiceRequestsService.ServiceRequestsService.ListMineInvitations | apps/api/src/service-requests/service-requests.service.ts:722-787 | Leaves the rows of a sweep followed by the repair of the provider's invitations |
| ServiceRequestsService.ServiceRequestsService.DeclineInvitation | apps/api/src/service-requests/service-requests.service.ts:858-948 | Answers and leaves the rows of the specified call, deciding on the invitation as read before the refresh |
| ServiceRequestsService.ServiceRequestsService.SubmitProposal | apps/api/src/service-requests/service-requests.service.ts:950-1055 | Answers and leaves the rows of the specified call: one proposal per provider, resubmitted in place at the new price (SubmitRule), its invitation accepted |
| ServiceRequestsService.ServiceRequestsService.MarkInvitationAccepted | apps/api/src/service-requests/service-requests.service.ts:1551-1588 | Exactly the provider's invitation to the request becomes accepted |
| ServiceRequestsService.ServiceRequestsService.SelectProposal | apps/api/src/service-requests/service-requests.service.ts:1115-1395 | Answers and leaves the rows of the specified call, in the order of its checks |
| ServiceRequestsService.ServiceRequestsService.CloseRequest | apps/api/src/service-requests/service-requests.service.ts:1228-1349 | The transaction either finds a job and only expires invitations, or closes the request, settles all its proposals and creates the one job |
| Tracking.QueueIsSafe | apps/api/src/tracking/tracking.service.ts:62-296 | In any interleaving of ingests, timer callbacks and settled transactions the queue stays within its bound, a flush is due or running whenever events wait, the accepted events are exactly those persisted, lost, in flight and queued, in order, and the tables are those of the persisted events |
| Tracking.TimerDrains | apps/api/src/tracking/tracking.service.ts:250-268 | With no batch in flight the next timer callback takes the whole queue into one |
| Tracking.IngestRule | apps/api/src/tracking/tracking.service.ts:62-91 | A call takes its events from the front and in order: all of them, or 200, or as many as fill the queue to 3000 |
| Tracking.TimerRule | apps/api/src/tracking/tracking.service.ts:250-268 | A callback during a flush waits for another one; otherwise it sends off exactly the whole queue |
| Tracking.SettleRule | apps/api/src/tracking/tracking.service.ts:270-296 | A persisted batch leaves the tables of its events persisted one by one, a failed one leaves them alone, and either way the batch is gone and a waiting queue has a callback |
| Tracking.BatchedIsSequential | apps/api/src/tracking/tracking.service.ts:298-423 | Aggregating a batch into delta maps and upserting them equals persisting its events one by one, counters and dates alike |
| Tracking.SequentialIgnoresNow | apps/api/src/tracking/tracking.service.ts:373-421 | The time of persisting never shows in a row |
| Tracking.WorkerRowTallies | apps/api/src/tracking/tracking.service.ts:298-352 | A worker has a row exactly if an event engaged with the worker; it counts the clicks, call-to-action clicks and conversions, their sum as interactions, and dates from the last of them in the list |
| Tracking.CategoryRowTallies | apps/api/src/tracking/tracking.service.ts:349-359 | A category has a row exactly if an event selected it, with the number of such events and the time of the last in the list |
| Tracking.UpsertIsCounted | apps/api/src/tracking/tracking.service.ts:375-401 | Upserting keeps interactions equal to clicks plus call-to-action clicks plus conversions in every row |
| Tracking.DoneIsOk | apps/api/src/tracking/tracking.service.ts:289-296 | A settled transaction, committed or failed, keeps the queue machine's invariant and reschedules if events wait |
| TrackingService.DeltaMaps.ApplyEventToAggregateMaps | apps/api/src/tracking/tracking.service.ts:298-360 | One event changes the delta maps as specified |
| TrackingService.DeltaMaps.GetOrCreateWorkerDelta | apps/api/src/tracking/tracking.service.ts:425-445 | Answers the delta there was or a new one of zeros, which is then in the map |
| TrackingService.TrackingService.IngestEvents | apps/api/src/tracking/tracking.service.ts:62-91 | The first events that fit are queued in order, every other of the call is counted as dropped, and a flush is due |
| TrackingService.TrackingService.ScheduleFlush | apps/api/src/tracking/tracking.service.ts:239-248 | One more callback is owed unless one is owed already |
| TrackingService.TrackingService.FlushQueue | apps/api/src/tracking/tracking.service.ts:250-275 | A callback starts a flush of the whole queue, with the deltas of exactly that batch, or reschedules, or does nothing |
| TrackingService.TrackingService.PersistDeltas | apps/api/src/tracking/tracking.service.ts:362-423 | Upserting key by key, in any order, is the upsert of the maps |
| TrackingService.TrackingService.FinishFlush | apps/api/src/tracking/tracking.service.ts:277-296 | The rest of a flush leaves the specified state, also when the transaction failed |
| Sessions.AcceptedOnce | apps/api/src/auth/auth.service.ts:146-222 | In every atomic run no refresh token is accepted twice |
| Sessions.AcceptedIff | apps/api/src/auth/auth.service.ts:146-222 | In any interleaving a token is accepted exactly when it was issued here, no later one was issued for its session, it has not expired, the session is not revoked and its user is active |
| Sessions.AcceptedIsUnspent | apps/api/src/auth/auth.service.ts:193-222 | In any interleaving no refresh that used an accepted token has finished, so a token is accepted once more only while its first use is pending |
| Sessions.ReplayRevokes | apps/api/src/auth/auth.service.ts:165-210 | In any interleaving, presenting an issued token that is not the session's current one leaves the session revoked exactly if it was already, or the user is active and the token has not expired |
| Sessions.UsedTokenRevokes | apps/api/src/auth/auth.service.ts:193-210 | The same for every token whose refresh has finished |
| Sessions.RevokedForever | apps/api/src/auth/auth.service.ts:165-173 | In atomic runs a revoked session stays revoked and no token is ever signed for it again |
| Sessions.RevivedIff | apps/api/src/auth/auth.service.ts:565-574 | In any interleaving a revoked session comes back exactly by a pending token write for it |
| Sessions.RacingRefreshes | apps/api/src/auth/auth.service.ts:193-213 | Two refreshes that race with one token are both accepted |
| Sessions.LogoutDuringRefresh | apps/api/src/auth/auth.service.ts:241-251 | A logout of all sessions between the checks and the write of a refresh is undone by the write |
| Sessions.CallsAreRuns | apps/api/src/auth/auth.service.ts:525-574 | Every atomic run is one of the interleavings |
| SessionRules.LogoutShutsItsSession | apps/api/src/auth/auth.service.ts:224-239 | In any interleaving, a logout with a session's current token ends that session and leaves the verdict on every token of every other session at every time; with any other token it changes nothing |
| SessionRules.LogoutRule | apps/api/src/auth/auth.service.ts:224-239 | A logout revokes exactly the sessions that hold the presented token's digest, and none without a token; users, devices and hashes stay |
| SessionRules.LogoutIsFinal | apps/api/src/auth/auth.service.ts:224-239 | In atomic runs no token of a session is accepted again after a logout with its current token, whatever follows |
| SessionRules.LogoutAllShuts | apps/api/src/auth/auth.service.ts:241-251 | Exactly the user's sessions are revoked, so that none of their tokens is accepted, and every other session and verdict stays |
| SessionRules.RevokeSessionShuts | apps/api/src/auth/auth.service.ts:308-319 | Exactly the named session is revoked and only for its own user, and every other session and verdict stays |
| SessionRules.RotationRule | apps/api/src/auth/auth.service.ts:193-222 | An accepted refresh replaces its session's token by one with a new id and a week to live, which alone is accepted from then on; the replaced one counts as a reuse until its expiry, and every other session stays |
| SessionRules.LoginRule | apps/api/src/auth/auth.service.ts:525-574 | A login opens a session of its own for that user and device, whose one new token alone is accepted, for a week and while the user is active; every other session stays |
| SessionRules.RefusalRule | apps/api/src/auth/auth.service.ts:146-210 | A refresh that is not accepted signs nothing; exactly a signed, unexpired token for an unrevoked session of its active user, with another device or another digest, revokes that session, and everything else changes nothing |
| SessionRules.SuspensionShuts | apps/api/src/admin-ops/admin-ops.service.ts:317-380 | Suspending a user ends all the user's sessions, reactivating brings none of them back, and no verdict on anybody else's tokens changes |
| AuthService.AuthService.Refresh | apps/api/src/auth/auth.service.ts:146-222 | Leaves the sessions of the specified atomic call and answers a token exactly when the presented one is accepted |
| AuthService.AuthService.CheckRefresh | apps/api/src/auth/auth.service.ts:146-210 | Leaves the sessions of the specified checks, with the reused token's session revoked |
| AuthService.AuthService.IssueTokens | apps/api/src/auth/auth.service.ts:525-587 | The session's hash becomes that of a token with a new id, and the session is not revoked |
| AuthService.AuthService.Login | apps/api/src/auth/auth.service.ts:525-574 | Leaves a new session with the hash of its first token |
| AuthService.AuthService.Logout | apps/api/src/auth/auth.service.ts:224-239 | Leaves the sessions of the specified call, which by LogoutRule revokes exactly those with the presented token's hash |
| AuthService.AuthService.LogoutAll | apps/api/src/auth/auth.service.ts:241-251 | Revokes exactly the user's sessions |
| AuthService.AuthService.RevokeSession | apps/api/src/auth/auth.service.ts:308-319 | Revokes the named session if it is the user's |
| AuthService.AuthService.RevokeSessionChain | apps/api/src/auth/auth.service.ts:612-620 | Revokes the one session, despite the name |
| AuthService.AuthService.UpdateUserStatus | apps/api/src/admin-ops/admin-ops.service.ts:317-380 | Suspending a user revokes all the user's sessions; reactivating revives none |

## Left out

- Database: the bodies of database transactions are atomic, and a violated unique constraint (idempotency keys, gateway references, one job per request, one proposal and one invitation per provider and request) rolls the body back; isolation levels below that are not modelled.
- Order of rows: a row's id is its position in its table, and "latest by creation time" is the highest position.
- Gateways and webhook signatures: an answer is any status with any reference, a signature check is a boolean; what a gateway did when a refund's transaction is rolled back after the gateway answered is not recorded.
- Webhook deduplication: the lookup of an event and its insertion are one step; two deliveries racing between them are separated by a unique constraint, which answers an error instead of a deduplication.
- The status text of a webhook arrives already trimmed and upper-cased.
- PaymentsService.PaymentsService.ReconcilePending: takes the scanned ids as given; the age filter, the order by last update and the batch limit that choose them are not modelled.
- `adminApproveRefund` has no member of its own: it is `ProcessRefundRequest` after the same status check.
- Statuses that no modelled operation writes (PENDING transactions, CANCELED payouts, EXPIRED intents by time, ADJUSTMENT entries and the PLATFORM_AVAILABLE bucket).
- Environment: the fee rate, the release delay, the deposit percentage and the lifetimes of requests arrive resolved and clamped to their bounds.
- Currency: all intents are in one currency and balances ignore it, as in the service.
- ServiceRequestsService.ServiceRequestsService.CloseRequest: keeps the deposit's split with the job but not the intent row that the same transaction inserts, because that row belongs to the money part, where the call `OpenJob` inserts it.
- PaymentsService.JobsService.UpdateStatus: takes a job's worker to be its provider, where the service compares the user of its worker profile; for a job opened by a selection the two are the same user.
- Split steps of requests other than selection: the sweep collects ids and expires them in one step, and invitations and proposals are checked and written in one step; what a late proposal or invitation does is stated by ProposalKeeps and InvitationKeeps.
- Timestamps that nothing decides on (openedAt, respondedAt, lastUsedAt), texts, categories, locations, notifications, support cases, audit and metrics.
- Tracking events: ids arrive already trimmed and lower-cased and times resolved; ranking scores, logarithms and decay are not modelled.
- Authentication: passwords, registration, recovery, access tokens and reauthentication; SHA-256 is taken to be injective and token ids to be unique, and device ids arrive resolved. The session revocation on a role change is that of LogoutAll.
- Controllers, DTO decorators, guards, pagination, admin lists, provider summaries, and the whole web application.
- docs/PAYMENTS_FLOW.md (26-36) has charge entries follow a charge's success; the code books them on success of any transaction, whatever its type (RefundNoticeBooksCharge). The code is followed.
- docs/PAYOUT_SYSTEM.md (35-41, 88-98) has canceled and retried payouts; no operation of the service leads there. The code is followed.
- docs/CANCELLATION_REFUND_POLICY.md (82, 103) forbids payouts while a refund is pending; the service does not check it. The code is followed.
